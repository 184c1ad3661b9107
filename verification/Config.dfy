/** Configuration fields stored by path in a JSON file (partner-chains-cli `config`). */
module Config {
  import opened Widths
  import opened Wrappers

  datatype Json =
    | Null
    | Bool(b: bool)
    | Number(n: int)
    | Float(r: real)
    | String(s: string)
    | Array(elements: seq<Json>)
    | Object(fields: map<string, Json>)

  type Path = seq<string>

  const EMPTY: Json := Object(map[])

  function Get(j: Json, field: string): Option<Json> {
    if j.Object? && field in j.fields then Some(j.fields[field]) else None
  }

  function Load(j: Json, path: Path): Option<Json> {
    if path == [] then Some(j)
    else
      match Get(j, path[0])
      case None => None
      case Some(child) => Load(child, path[1..])
  }

  /** Indexing for update works on an object, turns null into one, and panics on anything else. */
  predicate Indexable(j: Json) {
    j.Object? || j.Null?
  }

  function Fields(j: Json): map<string, Json> {
    if j.Object? then j.fields else map[]
  }

  /** The child to descend into: what is there if it is an object, otherwise a new object. */
  function Child(j: Json, field: string): (c: Json)
    ensures c.Object?
  {
    match Get(j, field)
    case Some(Object(fields)) => Object(fields)
    case _ => EMPTY
  }

  function Saved(j: Json, path: Path, v: Json): Json
    requires path != [] ==> Indexable(j)
    decreases |path|
  {
    if path == [] then v else Object(Fields(j)[path[0] := Saved(Child(j, path[0]), path[1..], v)])
  }

  /** A missing file counts as an empty object. */
  function Root(file: Option<Json>): Json {
    if file.None? then EMPTY else file.value
  }

  function SavedFile(file: Option<Json>, path: Path, v: Json): Fallible<Json> {
    if path == [] || Indexable(Root(file)) then Done(Saved(Root(file), path, v)) else Panicked
  }

  // ---------- the loops ----------

  /** `extract_from_json_object`, before the value is decoded. */
  method Extract(json: Json, path: Path) returns (r: Option<Json>)
    ensures r == Load(json, path)
  {
    r := Some(json);
    for i := 0 to |path|
      invariant Load(json, path) == if r.None? then None else Load(r.value, path[i..])
    {
      if r.None? {
        return None;
      }
      r := Get(r.value, path[i]);
      assert path[i..][1..] == path[i + 1..];
    }
  }

  /** Puts a value back under the objects passed on the way down. */
  function Rebuilt(parents: seq<map<string, Json>>, path: Path, v: Json): Json
    requires |parents| == |path|
  {
    if parents == [] then v
    else
      var n := |parents| - 1;
      Rebuilt(parents[..n], path[..n], Object(parents[n][path[n] := v]))
  }

  /** The way down: every step leaves an object behind and moves the cursor into its field. */
  method Descend(root: Json, path: Path, ghost v: Json) returns (r: Fallible<seq<map<string, Json>>>)
    ensures r.Panicked? <==> path != [] && !Indexable(root)
    ensures r.Done? ==> |r.value| == |path| && Saved(root, path, v) == Rebuilt(r.value, path, v)
  {
    if path == [] {
      return Done([]);
    }
    if !Indexable(root) {
      return Panicked;
    }
    var head := root;
    var parents: seq<map<string, Json>> := [];
    for i := 0 to |path|
      invariant |parents| == i && Indexable(head)
      invariant Saved(root, path, v) == Rebuilt(parents, path[..i], Saved(head, path[i..], v))
    {
      DescendOne(parents, path, i, head, v);
      parents := parents + [Fields(head)];
      head := Child(head, path[i]);
    }
    assert path[..|path|] == path;
    return Done(parents);
  }

  lemma DescendOne(parents: seq<map<string, Json>>, path: Path, i: nat, head: Json, v: Json)
    requires |parents| == i < |path| && Indexable(head)
    ensures Rebuilt(parents, path[..i], Saved(head, path[i..], v))
         == Rebuilt(parents + [Fields(head)], path[..i + 1], Saved(Child(head, path[i]), path[i + 1..], v))
  {
    assert path[i..][1..] == path[i + 1..];
    assert path[..i + 1][..i] == path[..i] && (parents + [Fields(head)])[..i] == parents;
  }

  /** The write at the cursor, seen from the root. */
  method WriteBack(parents: seq<map<string, Json>>, path: Path, v: Json) returns (r: Json)
    requires |parents| == |path|
    ensures r == Rebuilt(parents, path, v)
  {
    r := v;
    assert path[..|path|] == path && parents[..|path|] == parents;
    for i := |path| downto 0
      invariant Rebuilt(parents, path, v) == Rebuilt(parents[..i], path[..i], r)
    {
      assert parents[..i + 1][..i] == parents[..i] && path[..i + 1][..i] == path[..i];
      r := Object(parents[i][path[i] := r]);
    }
  }

  /** `save_to_file`: the value replaces what the cursor ends at. */
  method SaveToFile(file: Option<Json>, path: Path, v: Json) returns (r: Fallible<Json>)
    ensures r == SavedFile(file, path, v)
    ensures r.Panicked? <==> path != [] && file.Some? && !file.value.Object? && !file.value.Null?
  {
    var parents := Descend(Root(file), path, v);
    if parents.Panicked? {
      return Panicked;
    }
    var value := WriteBack(parents.value, path, v);
    return Done(value);
  }

  // ---------- the laws ----------

  /** What a load at `q` finds after a save at `p`, for all paths: the value, part of it, an object that contains it, or what was there. */
  lemma {:induction false} LoadAfterSave(j: Json, p: Path, v: Json, q: Path)
    requires p != [] ==> Indexable(j)
    ensures p <= q ==> Load(Saved(j, p, v), q) == Load(v, q[|p|..])
    ensures q < p ==> Load(Saved(j, p, v), q) == Some(Saved(At(j, q), p[|q|..], v))
    ensures !(p <= q) && !(q <= p) ==> Load(Saved(j, p, v), q) == Load(j, q)
    decreases |p|
  {
    if p != [] && q != [] && p[0] == q[0] {
      PrefixTail(p, q);
      PrefixTail(q, p);
      LoadAfterSave(Child(j, p[0]), p[1..], v, q[1..]);
      LoadInField(j, p, v, q);
    }
  }

  /** One step into a shared field. */
  lemma LoadInField(j: Json, p: Path, v: Json, q: Path)
    requires p != [] && q != [] && p[0] == q[0] && Indexable(j)
    ensures Load(Saved(j, p, v), q) == Load(Saved(Child(j, p[0]), p[1..], v), q[1..])
    ensures |q| > 1 ==> Load(j, q) == Load(Child(j, q[0]), q[1..])
  {
  }

  /** The object a save below `q` builds on. */
  function At(j: Json, q: Path): (r: Json)
    ensures q != [] ==> r.Object?
    ensures q == [] ==> r == j
    decreases |q|
  {
    if q == [] then j else At(Child(j, q[0]), q[1..])
  }

  /** What the children of an object are after a save. */
  lemma ChildAfterSave(j: Json, p: Path, v: Json, field: string)
    requires p != [] && Indexable(j)
    ensures field != p[0] ==> Child(Saved(j, p, v), field) == Child(j, field)
    ensures field == p[0] && |p| > 1 ==> Child(Saved(j, p, v), field) == Saved(Child(j, field), p[1..], v)
  {
  }

  /** A second save wins. */
  lemma {:induction false} SaveTwice(j: Json, p: Path, v: Json, w: Json)
    requires p != [] ==> Indexable(j)
    ensures Saved(Saved(j, p, v), p, w) == Saved(j, p, w)
    decreases |p|
  {
    if |p| > 1 {
      ChildAfterSave(j, p, v, p[0]);
      SaveTwice(Child(j, p[0]), p[1..], v, w);
      SavedTwiceFields(j, p, v, w);
    } else if |p| == 1 {
      assert p[1..] == [];
    }
  }

  lemma SavedTwiceFields(j: Json, p: Path, v: Json, w: Json)
    requires p != [] && Indexable(j)
    requires Saved(Child(Saved(j, p, v), p[0]), p[1..], w) == Saved(Child(j, p[0]), p[1..], w)
    ensures Saved(Saved(j, p, v), p, w) == Saved(j, p, w)
  {
    var x := Saved(Child(j, p[0]), p[1..], w);
    assert Saved(j, p, v).fields[p[0] := x] == Fields(j)[p[0] := x];
  }

  /** Saving what is there changes nothing. */
  lemma {:induction false} SaveLoaded(j: Json, p: Path)
    requires Load(j, p).Some?
    ensures (p != [] ==> j.Object?) && Saved(j, p, Load(j, p).value) == j
    decreases |p|
  {
    if p != [] {
      var child := Get(j, p[0]).value;
      SaveLoaded(child, p[1..]);
      assert j.fields[p[0] := child] == j.fields;
    }
  }

  lemma PrefixTail(p: Path, q: Path)
    requires p != [] && q != [] && p[0] == q[0]
    ensures p <= q <==> p[1..] <= q[1..]
  {
  }

  lemma SavesCommuteApart(j: Json, p: Path, v: Json, q: Path, w: Json)
    requires Indexable(j) && p != [] && q != [] && p[0] != q[0]
    ensures Saved(Saved(j, p, v), q, w) == Saved(Saved(j, q, w), p, v)
  {
    ChildAfterSave(j, p, v, q[0]);
    ChildAfterSave(j, q, w, p[0]);
    var x, y := Saved(Child(j, p[0]), p[1..], v), Saved(Child(j, q[0]), q[1..], w);
    assert Fields(j)[p[0] := x][q[0] := y] == Fields(j)[q[0] := y][p[0] := x];
  }

  /** One step into a shared field. */
  lemma SavesInField(j: Json, p: Path, v: Json, q: Path, w: Json)
    requires Indexable(j) && |p| > 1 && |q| > 1 && p[0] == q[0]
    ensures Saved(Saved(j, p, v), q, w)
         == Object(Fields(j)[p[0] := Saved(Saved(Child(j, p[0]), p[1..], v), q[1..], w)])
  {
    ChildAfterSave(j, p, v, q[0]);
    var x, y := Saved(Child(j, p[0]), p[1..], v), Saved(Saved(Child(j, p[0]), p[1..], v), q[1..], w);
    assert Fields(j)[p[0] := x][p[0] := y] == Fields(j)[p[0] := y];
  }

  /** Saves at paths that do not contain one another commute. */
  lemma {:induction false} SavesCommute(j: Json, p: Path, v: Json, q: Path, w: Json)
    requires Indexable(j) && !(p <= q) && !(q <= p)
    ensures Saved(Saved(j, p, v), q, w) == Saved(Saved(j, q, w), p, v)
    decreases |p|
  {
    if p[0] == q[0] {
      PrefixTail(p, q);
      PrefixTail(q, p);
      SavesInField(j, p, v, q, w);
      SavesInField(j, q, w, p, v);
      SavesCommute(Child(j, p[0]), p[1..], v, q[1..], w);
    } else {
      SavesCommuteApart(j, p, v, q, w);
    }
  }

  // ---------- the Cardano parameters ----------

  datatype Network = Mainnet | Testnet

  /** A floating-point number, up to rounding. */
  datatype F64 = Finite(value: real) | NotFinite

  type U64 = n: nat | n < U64_LIMIT
  type U32 = n: nat | n < U32_LIMIT

  datatype CardanoParameters = CardanoParameters(
    securityParameter: U64,
    activeSlotsCoeff: F64,
    firstEpochNumber: U32,
    firstSlotNumber: U64,
    epochDurationMillis: U64,
    firstEpochTimestampMillis: U64,
    network: Network)

  function DecodeNumber(j: Option<Json>, limit: nat): Option<nat> {
    if j.Some? && j.value.Number? && 0 <= j.value.n < limit then Some(j.value.n) else None
  }

  /** JSON has no infinities and no not-a-number; they are written as null. */
  function EncodeFloat(f: F64): Json {
    if f.Finite? then Float(f.value) else Null
  }

  function DecodeFloat(j: Option<Json>): Option<F64> {
    match j
    case Some(Float(r)) => Some(Finite(r))
    case Some(Number(n)) => Some(Finite(n as real))
    case _ => None
  }

  function EncodeNetwork(n: Network): Json {
    String(if n.Mainnet? then "mainnet" else "testnet")
  }

  function DecodeNetwork(j: Option<Json>): Option<Network> {
    if j == Some(String("mainnet")) then Some(Mainnet)
    else if j == Some(String("testnet")) then Some(Testnet)
    else None
  }

  datatype Field = NetworkField | SecurityParameter | ActiveSlotsCoeff | FirstEpochNumber | FirstSlotNumber
                 | EpochDuration | FirstEpochTimestamp

  function Name(f: Field): string {
    match f
    case NetworkField => "network"
    case SecurityParameter => "security_parameter"
    case ActiveSlotsCoeff => "active_slots_coeff"
    case FirstEpochNumber => "first_epoch_number"
    case FirstSlotNumber => "first_slot_number"
    case EpochDuration => "epoch_duration_millis"
    case FirstEpochTimestamp => "first_epoch_timestamp_millis"
  }

  lemma NamesDiffer(f: Field, g: Field)
    requires f != g
    ensures Name(f) != Name(g)
  {
    assert |"network"| == 7 && |"security_parameter"| == 18 && |"active_slots_coeff"| == 18 && |"first_epoch_number"| == 18
        && |"first_slot_number"| == 17 && |"epoch_duration_millis"| == 21 && |"first_epoch_timestamp_millis"| == 28;
    assert "security_parameter"[0] == 's' && "active_slots_coeff"[0] == 'a' && "first_epoch_number"[0] == 'f';
  }

  function CardanoPath(f: Field): Path {
    ["cardano", Name(f)]
  }

  /** The paths of the fields in the file. */
  lemma FieldPaths()
    ensures CardanoPath(NetworkField) == ["cardano", "network"]
    ensures CardanoPath(SecurityParameter) == ["cardano", "security_parameter"]
    ensures CardanoPath(ActiveSlotsCoeff) == ["cardano", "active_slots_coeff"]
    ensures CardanoPath(FirstEpochNumber) == ["cardano", "first_epoch_number"]
    ensures CardanoPath(FirstSlotNumber) == ["cardano", "first_slot_number"]
    ensures CardanoPath(EpochDuration) == ["cardano", "epoch_duration_millis"]
    ensures CardanoPath(FirstEpochTimestamp) == ["cardano", "first_epoch_timestamp_millis"]
  {
  }

  /** A field and the value to save there. */
  datatype Entry = Entry(field: Field, value: Json)

  /** The fields in the order in which they are saved. */
  function Entries(c: CardanoParameters): seq<Entry> {
    [Entry(NetworkField, EncodeNetwork(c.network)),
     Entry(SecurityParameter, Number(c.securityParameter)),
     Entry(ActiveSlotsCoeff, EncodeFloat(c.activeSlotsCoeff)),
     Entry(FirstEpochNumber, Number(c.firstEpochNumber)),
     Entry(FirstSlotNumber, Number(c.firstSlotNumber)),
     Entry(EpochDuration, Number(c.epochDurationMillis)),
     Entry(FirstEpochTimestamp, Number(c.firstEpochTimestampMillis))]
  }

  function SavedAll(j: Json, entries: seq<Entry>): (r: Json)
    requires Indexable(j)
    ensures Indexable(r)
  {
    if entries == [] then j
    else
      var n := |entries| - 1;
      Saved(SavedAll(j, entries[..n]), CardanoPath(entries[n].field), entries[n].value)
  }

  /** Every entry of a save is found, whatever the file held before. */
  lemma {:induction false} EntriesAreFound(j: Json, entries: seq<Entry>, i: nat)
    requires Indexable(j) && i < |entries|
    requires forall a, b :: 0 <= a < b < |entries| ==> entries[a].field != entries[b].field
    ensures Load(SavedAll(j, entries), CardanoPath(entries[i].field)) == Some(entries[i].value)
  {
    var n := |entries| - 1;
    var before := SavedAll(j, entries[..n]);
    LoadAfterSave(before, CardanoPath(entries[n].field), entries[n].value, CardanoPath(entries[i].field));
    if i < n {
      EntriesAreFound(j, entries[..n], i);
      NamesDiffer(entries[i].field, entries[n].field);
      assert CardanoPath(entries[i].field)[1] != CardanoPath(entries[n].field)[1];
    }
  }

  function Decoded(security: Option<Json>, coeff: Option<Json>, epoch: Option<Json>, slot: Option<Json>, duration: Option<Json>,
                   timestamp: Option<Json>, network: Option<Json>): Option<CardanoParameters> {
    var security := DecodeNumber(security, U64_LIMIT);
    var coeff := DecodeFloat(coeff);
    var epoch := DecodeNumber(epoch, U32_LIMIT);
    var slot := DecodeNumber(slot, U64_LIMIT);
    var duration := DecodeNumber(duration, U64_LIMIT);
    var timestamp := DecodeNumber(timestamp, U64_LIMIT);
    var network := DecodeNetwork(network);
    if security.Some? && coeff.Some? && epoch.Some? && slot.Some? && duration.Some? && timestamp.Some? && network.Some?
    then Some(CardanoParameters(security.value, coeff.value, epoch.value, slot.value, duration.value, timestamp.value, network.value))
    else None
  }

  /** `CardanoParameters::read`; nothing is read from a missing file. */
  function Read(file: Option<Json>): Option<CardanoParameters> {
    if file.None? then None
    else
      var j := file.value;
      Decoded(Load(j, CardanoPath(SecurityParameter)), Load(j, CardanoPath(ActiveSlotsCoeff)), Load(j, CardanoPath(FirstEpochNumber)),
              Load(j, CardanoPath(FirstSlotNumber)), Load(j, CardanoPath(EpochDuration)), Load(j, CardanoPath(FirstEpochTimestamp)),
              Load(j, CardanoPath(NetworkField)))
  }

  /** `CardanoParameters::save`: one file update per field; only a root that is neither an object nor null panics. */
  function Save(file: Option<Json>, c: CardanoParameters): Fallible<Json> {
    if Indexable(Root(file)) then Done(SavedAll(Root(file), Entries(c))) else Panicked
  }

  /** What is saved is read back, over any prior file that can be updated, if and only if the coefficient is finite. */
  lemma ReadAfterSave(file: Option<Json>, c: CardanoParameters)
    requires Save(file, c).Done?
    ensures Read(Some(Save(file, c).value)) == if c.activeSlotsCoeff.Finite? then Some(c) else None
  {
    var j, e := Root(file), Entries(c);
    var r := SavedAll(j, e);
    forall i | 0 <= i < |e|
      ensures Load(r, CardanoPath(e[i].field)) == Some(e[i].value)
    {
      EntriesAreFound(j, e, i);
    }
    EntriesHold(r, c);
    HoldsIsRead(r, c);
  }

  lemma DecodedBack(c: CardanoParameters)
    ensures Decoded(Some(Number(c.securityParameter)), Some(EncodeFloat(c.activeSlotsCoeff)), Some(Number(c.firstEpochNumber)),
                    Some(Number(c.firstSlotNumber)), Some(Number(c.epochDurationMillis)), Some(Number(c.firstEpochTimestampMillis)),
                    Some(EncodeNetwork(c.network)))
         == if c.activeSlotsCoeff.Finite? then Some(c) else None
  {
  }

  /** Every field of `c` is found in `r`. */
  ghost predicate Holds(r: Json, c: CardanoParameters) {
    && Load(r, CardanoPath(SecurityParameter)) == Some(Number(c.securityParameter))
    && Load(r, CardanoPath(ActiveSlotsCoeff)) == Some(EncodeFloat(c.activeSlotsCoeff))
    && Load(r, CardanoPath(FirstEpochNumber)) == Some(Number(c.firstEpochNumber))
    && Load(r, CardanoPath(FirstSlotNumber)) == Some(Number(c.firstSlotNumber))
    && Load(r, CardanoPath(EpochDuration)) == Some(Number(c.epochDurationMillis))
    && Load(r, CardanoPath(FirstEpochTimestamp)) == Some(Number(c.firstEpochTimestampMillis))
    && Load(r, CardanoPath(NetworkField)) == Some(EncodeNetwork(c.network))
  }

  /** What can be found for a coefficient: the number as a float, or as an integer. */
  ghost predicate IsCoefficient(j: Option<Json>, f: F64) {
    f.Finite? && j.Some? && (j.value == Float(f.value) || (j.value.Number? && j.value.n as real == f.value))
  }

  /** Parameters are decoded exactly from their own encoding, with a coefficient that may be an integer. */
  lemma DecodedIff(security: Option<Json>, coeff: Option<Json>, epoch: Option<Json>, slot: Option<Json>, duration: Option<Json>,
                   timestamp: Option<Json>, network: Option<Json>, c: CardanoParameters)
    ensures Decoded(security, coeff, epoch, slot, duration, timestamp, network) == Some(c) <==>
              && security == Some(Number(c.securityParameter)) && IsCoefficient(coeff, c.activeSlotsCoeff)
              && epoch == Some(Number(c.firstEpochNumber)) && slot == Some(Number(c.firstSlotNumber))
              && duration == Some(Number(c.epochDurationMillis)) && timestamp == Some(Number(c.firstEpochTimestampMillis))
              && network == Some(String(if c.network.Mainnet? then "mainnet" else "testnet"))
  {
    assert "mainnet"[0] != "testnet"[0];
  }

  /** So they are read exactly if each field is found in its place. */
  lemma ReadIff(j: Json, c: CardanoParameters)
    ensures Read(None) == None
    ensures Read(Some(j)) == Some(c) <==>
              && Load(j, CardanoPath(SecurityParameter)) == Some(Number(c.securityParameter))
              && IsCoefficient(Load(j, CardanoPath(ActiveSlotsCoeff)), c.activeSlotsCoeff)
              && Load(j, CardanoPath(FirstEpochNumber)) == Some(Number(c.firstEpochNumber))
              && Load(j, CardanoPath(FirstSlotNumber)) == Some(Number(c.firstSlotNumber))
              && Load(j, CardanoPath(EpochDuration)) == Some(Number(c.epochDurationMillis))
              && Load(j, CardanoPath(FirstEpochTimestamp)) == Some(Number(c.firstEpochTimestampMillis))
              && Load(j, CardanoPath(NetworkField)) == Some(String(if c.network.Mainnet? then "mainnet" else "testnet"))
  {
    DecodedIff(Load(j, CardanoPath(SecurityParameter)), Load(j, CardanoPath(ActiveSlotsCoeff)), Load(j, CardanoPath(FirstEpochNumber)),
               Load(j, CardanoPath(FirstSlotNumber)), Load(j, CardanoPath(EpochDuration)), Load(j, CardanoPath(FirstEpochTimestamp)),
               Load(j, CardanoPath(NetworkField)), c);
  }

  lemma EntriesHold(r: Json, c: CardanoParameters)
    requires forall i :: 0 <= i < |Entries(c)| ==> Load(r, CardanoPath(Entries(c)[i].field)) == Some(Entries(c)[i].value)
    ensures Holds(r, c)
  {
    var e := Entries(c);
    assert e[0].field == NetworkField && e[1].field == SecurityParameter && e[2].field == ActiveSlotsCoeff
        && e[3].field == FirstEpochNumber && e[4].field == FirstSlotNumber && e[5].field == EpochDuration
        && e[6].field == FirstEpochTimestamp;
  }

  lemma HoldsIsRead(r: Json, c: CardanoParameters)
    requires Holds(r, c)
    ensures Read(Some(r)) == if c.activeSlotsCoeff.Finite? then Some(c) else None
  {
    DecodedBack(c);
  }
}
