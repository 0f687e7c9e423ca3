/**
 The conversion of group snapshot contents between API versions v1beta1 and v1beta2, done
 in place on the JSON tree: the newer list is kept in an annotation on the way down and
 restored from it on the way up.
 */
module Conversion {

  /** Field names and annotation names; those the conversion knows stand for themselves. */
  datatype Field =
    | Metadata | Status | AnnotationMap | InfoList | HandlePairList | CreationTime | ReadyToUse | RestoreSize | Tracking
    | Other(name: string)

  datatype Json =
    | Null | Bool(b: bool) | Number(n: int) | String(text: Text) | Array(items: seq<Json>) | Object(fields: map<Field, Json>)

  /** A string, or the JSON text of a value. */
  datatype Text = Plain(s: string) | Encoded(value: Json)

  type Fields = map<Field, Json>

  /** How decoding sees what encoding cannot: plain strings as JSON, and numbers as doubles. */
  datatype Decoder = Decoder(parse: string -> Option, round: int -> int)

  datatype Option = None | Some(value: Json)

  datatype Error = NotAMap | NotAList | BadAnnotation | BadEntry(index: nat)

  datatype Result = Converted(tree: Fields) | Failed(error: Error) | Panicked

  // ---- JSON text ----

  /** A value as it comes back from its JSON text. */
  function Rounded(v: Json, round: int -> int): Json {
    match v
    case Number(n) => Number(round(n))
    case Array(items) => Array(seq(|items|, i requires 0 <= i < |items| => Rounded(items[i], round)))
    case Object(fields) => Object(map f | f in fields :: Rounded(fields[f], round))
    case _ => v
  }

  /** Every number in the value is exactly a double. */
  predicate Exact(v: Json, round: int -> int) {
    match v
    case Number(n) => round(n) == n
    case Array(items) => forall i | 0 <= i < |items| :: Exact(items[i], round)
    case Object(fields) => forall f | f in fields :: Exact(fields[f], round)
    case _ => true
  }

  lemma {:induction false} ExactRoundTrip(v: Json, round: int -> int)
    requires Exact(v, round)
    ensures Rounded(v, round) == v
  {
    match v {
      case Array(items) =>
        forall i | 0 <= i < |items| ensures Rounded(items[i], round) == items[i] {
          ExactRoundTrip(items[i], round);
        }
      case Object(fields) =>
        forall f | f in fields ensures Rounded(fields[f], round) == fields[f] {
          ExactRoundTrip(fields[f], round);
        }
        assert (map f | f in fields :: Rounded(fields[f], round)) == fields;
      case _ =>
    }
  }

  function Unmarshal(t: Text, d: Decoder): Option {
    match t
    case Plain(s) => d.parse(s)
    case Encoded(v) => Some(Rounded(v, d.round))
  }

  // ---- The tree, two levels deep ----

  datatype Lookup = Absent | Present(value: Json) | NoPath

  function Nested(o: Fields, outer: Field, inner: Field): Lookup {
    if outer !in o || o[outer].Null? then Absent
    else if !o[outer].Object? then NoPath
    else if inner !in o[outer].fields then Absent
    else Present(o[outer].fields[inner])
  }

  predicate CanSet(o: Fields, outer: Field) {
    outer in o ==> o[outer].Object?
  }

  function Set(o: Fields, outer: Field, inner: Field, v: Json): Fields
    requires CanSet(o, outer)
  {
    o[outer := Object(if outer in o then o[outer].fields[inner := v] else map[inner := v])]
  }

  function Remove(o: Fields, outer: Field, inner: Field): Fields {
    if outer in o && o[outer].Object? then o[outer := Object(o[outer].fields - {inner})] else o
  }

  // ---- Annotations ----

  type Annotations = map<Field, Text>

  /** None stands for no map: absent, null, not a map, or a map with a value that is neither text nor null. */
  datatype MaybeAnnotations = NoMap | Map(value: Annotations)

  function AsText(v: Json): Text
    requires v.String? || v.Null?
  {
    if v.String? then v.text else Plain("")
  }

  function GetAnnotations(o: Fields): MaybeAnnotations {
    match Nested(o, Metadata, AnnotationMap)
    case Present(Object(fields)) =>
      if forall f <- fields :: fields[f].String? || fields[f].Null?
      then Map(map f | f in fields :: AsText(fields[f])) else NoMap
    case _ => NoMap
  }

  /** Nothing happens when the metadata is not a map. */
  function SetAnnotations(o: Fields, a: Annotations): Fields {
    if CanSet(o, Metadata) then Set(o, Metadata, AnnotationMap, Object(map f | f in a :: String(a[f]))) else o
  }

  // ---- What the two conversions compute ----

  function Upgraded(o: Fields, d: Decoder): Result {
    var annotations := GetAnnotations(o);
    if annotations.Map? && Tracking in annotations.value then
      var v := Unmarshal(annotations.value[Tracking], d);
      if v.None? then Failed(BadAnnotation)
      else if !v.value.Array? then Panicked
      else if !CanSet(o, Status) then Failed(NotAMap)
      else
        var set_ := Remove(Set(o, Status, InfoList, v.value), Status, HandlePairList);
        Converted(SetAnnotations(set_, annotations.value - {Tracking}))
    else
      match Nested(o, Status, HandlePairList)
      case NoPath => Failed(NotAMap)
      case Absent => Converted(o)
      case Present(v) =>
        if !v.Array? then Failed(NotAList)
        else Converted(Remove(Set(o, Status, InfoList, v), Status, HandlePairList))
  }

  const DROPPED := {CreationTime, ReadyToUse, RestoreSize}

  function Stripped(items: seq<Json>): seq<Json>
    requires forall i | 0 <= i < |items| :: items[i].Object?
  {
    seq(|items|, i requires 0 <= i < |items| => Object(items[i].fields - DROPPED))
  }

  /** The index of the first entry that is not a map, or the length. */
  function FirstBad(items: seq<Json>): (r: nat)
    ensures r <= |items| && (forall i | 0 <= i < r :: items[i].Object?) && (r < |items| ==> !items[r].Object?)
  {
    if items == [] then 0
    else
      var r := FirstBad(items[..|items| - 1]);
      if r < |items| - 1 || !items[|items| - 1].Object? then r else |items|
  }

  /** The annotations with the list kept among them. */
  function Tracked(a: MaybeAnnotations, v: Json): Annotations {
    (if a.Map? then a.value else map[])[Tracking := Encoded(v)]
  }

  function Downgraded(o: Fields): Result {
    match Nested(o, Status, InfoList)
    case NoPath => Failed(NotAMap)
    case Absent => Converted(o)
    case Present(v) =>
      if !v.Array? then Failed(NotAList)
      else if FirstBad(v.items) < |v.items| then Failed(BadEntry(FirstBad(v.items)))
      else
        var o1 := SetAnnotations(o, Tracked(GetAnnotations(o), v));
        Converted(Remove(Set(o1, Status, HandlePairList, Array(Stripped(v.items))), Status, InfoList))
  }

  // ---- When they succeed ----

  /** Downgrading fails exactly on a status or a list of the wrong shape. */
  lemma DowngradeSucceedsIff(o: Fields)
    ensures Downgraded(o).Converted?
            <==> match Nested(o, Status, InfoList)
                 case NoPath => false
                 case Absent => true
                 case Present(v) => v.Array? && forall i | 0 <= i < |v.items| :: v.items[i].Object?
  {}

  /** Upgrading panics exactly when the tracking annotation is JSON but not a list. */
  lemma UpgradePanicsIff(o: Fields, d: Decoder)
    ensures Upgraded(o, d).Panicked?
            <==> GetAnnotations(o).Map? && Tracking in GetAnnotations(o).value
                 && Unmarshal(GetAnnotations(o).value[Tracking], d).Some?
                 && !Unmarshal(GetAnnotations(o).value[Tracking], d).value.Array?
  {}

  /** An object whose tracking annotation is the JSON text of `v`. */
  function Annotated(v: Json): Fields {
    map[Metadata := Object(map[AnnotationMap := Object(map[Tracking := String(Encoded(v))])])]
  }

  /** Such annotations exist: the text `null`, or that of any value but a list. */
  lemma NonListsPanic(v: Json, d: Decoder)
    requires !v.Array?
    ensures Upgraded(Annotated(v), d).Panicked?
    ensures Upgraded(Annotated(Null), d).Panicked?
  {
    AnnotatedIsRead(v);
    AnnotatedIsRead(Null);
  }

  lemma AnnotatedIsRead(v: Json)
    ensures GetAnnotations(Annotated(v)) == Map(map[Tracking := Encoded(v)])
  {
    var fields := map[Tracking := String(Encoded(v))];
    assert (map f | f in fields :: AsText(fields[f])) == map[Tracking := Encoded(v)];
  }

  // ---- Reversibility ----

  /** Object metadata as the API server keeps it, not yet tracked. */
  predicate PlainMetadata(o: Fields) {
    && Metadata in o && o[Metadata].Object?
    && (AnnotationMap in o[Metadata].fields ==>
          && o[Metadata].fields[AnnotationMap].Object?
          && Tracking !in o[Metadata].fields[AnnotationMap].fields
          && forall f <- o[Metadata].fields[AnnotationMap].fields :: o[Metadata].fields[AnnotationMap].fields[f].String?)
  }

  /** The object without an empty annotation map. */
  function Tidy(o: Fields): Fields {
    if Nested(o, Metadata, AnnotationMap) == Present(Object(map[])) then Remove(o, Metadata, AnnotationMap) else o
  }

  /** The object without the tracking annotation. */
  function Untracked(o: Fields): Fields {
    match Nested(o, Metadata, AnnotationMap)
    case Present(Object(fields)) => if Tracking in fields then Set(o, Metadata, AnnotationMap, Object(fields - {Tracking})) else o
    case _ => o
  }

  /** The annotation map as a JSON value. */
  function AnnotationsOf(o: Fields): Fields
    requires PlainMetadata(o)
  {
    if AnnotationMap in o[Metadata].fields then o[Metadata].fields[AnnotationMap].fields else map[]
  }

  /** Reading the annotations and writing them back with one more changes just that one. */
  lemma WritingAnnotations(o: Fields, t: Text)
    requires PlainMetadata(o)
    ensures var a := (if GetAnnotations(o).Map? then GetAnnotations(o).value else map[])[Tracking := t];
            SetAnnotations(o, a) == Set(o, Metadata, AnnotationMap, Object(AnnotationsOf(o)[Tracking := String(t)]))
  {
    var a := (if GetAnnotations(o).Map? then GetAnnotations(o).value else map[])[Tracking := t];
    assert (map f | f in a :: String(a[f])) == AnnotationsOf(o)[Tracking := String(t)];
  }

  /** An object whose annotations are those of `o`, and the tracking one. */
  ghost predicate TrackedWith(p: Fields, o: Fields, t: Text)
    requires PlainMetadata(o)
  {
    Metadata in p
    && p[Metadata] == Object(o[Metadata].fields[AnnotationMap := Object(AnnotationsOf(o)[Tracking := String(t)])])
  }

  lemma ReadingTracked(p: Fields, o: Fields, t: Text)
    requires PlainMetadata(o) && TrackedWith(p, o, t)
    ensures GetAnnotations(p).Map? && Tracking in GetAnnotations(p).value && GetAnnotations(p).value[Tracking] == t
    ensures (map f | f in GetAnnotations(p).value - {Tracking} :: String((GetAnnotations(p).value - {Tracking})[f])) == AnnotationsOf(o)
  {
    var fields := AnnotationsOf(o)[Tracking := String(t)];
    assert Nested(p, Metadata, AnnotationMap) == Present(Object(fields));
    assert GetAnnotations(p) == Map(map f | f in fields :: AsText(fields[f]));
  }

  /** Everything but metadata and status is the same. */
  ghost predicate SameElsewhere(p: Fields, o: Fields) {
    p.Keys == o.Keys && forall f :: f in o && f != Metadata && f != Status ==> p[f] == o[f]
  }

  lemma DowngradeShape(o: Fields, v: Json)
    requires PlainMetadata(o) && Nested(o, Status, InfoList) == Present(v) && Downgraded(o).Converted?
    ensures var p := Downgraded(o).tree;
            && SameElsewhere(p, o) && TrackedWith(p, o, Encoded(v)) && Status in p
            && p[Status] == Object(o[Status].fields[HandlePairList := Array(Stripped(v.items))] - {InfoList})
  {
    WritingAnnotations(o, Encoded(v));
  }

  lemma UpgradeShape(p: Fields, o: Fields, v: Json, d: Decoder)
    requires PlainMetadata(o) && TrackedWith(p, o, Encoded(v)) && Status in p && p[Status].Object? && v.Array?
    ensures Upgraded(p, d).Converted?
    ensures var q := Upgraded(p, d).tree;
            && SameElsewhere(q, p)
            && q[Metadata] == Object(o[Metadata].fields[AnnotationMap := Object(AnnotationsOf(o))])
            && q[Status] == Object(p[Status].fields[InfoList := Rounded(v, d.round)] - {HandlePairList})
  {
    ReadingTracked(p, o, Encoded(v));
    var a := GetAnnotations(p).value - {Tracking};
    var q1 := Remove(Set(p, Status, InfoList, Rounded(v, d.round)), Status, HandlePairList);
    assert Upgraded(p, d).tree == SetAnnotations(q1, a);
    assert q1[Metadata] == p[Metadata];
    var fields := o[Metadata].fields[AnnotationMap := Object(AnnotationsOf(o)[Tracking := String(Encoded(v))])];
    assert fields[AnnotationMap := Object(AnnotationsOf(o))] == o[Metadata].fields[AnnotationMap := Object(AnnotationsOf(o))];
  }

  /** Down and up again: only the numbers in the list may change, to the doubles next to them. */
  lemma DownThenUp(o: Fields, d: Decoder)
    requires PlainMetadata(o) && Nested(o, Status, HandlePairList).Absent? && Downgraded(o).Converted?
    ensures Upgraded(Downgraded(o).tree, d).Converted?
    ensures var back := Upgraded(Downgraded(o).tree, d).tree;
            match Nested(o, Status, InfoList)
            case Present(v) => Tidy(back) == Tidy(Set(o, Status, InfoList, Rounded(v, d.round)))
            case _ => back == o
  {
    match Nested(o, Status, InfoList) {
      case Present(v) =>
        DowngradeShape(o, v);
        var p := Downgraded(o).tree;
        UpgradeShape(p, o, v, d);
        RestoredShape(o, v, p, Upgraded(p, d).tree, Rounded(v, d.round));
      case _ =>
    }
  }

  lemma RestoredShape(o: Fields, v: Json, p: Fields, q: Fields, w: Json)
    requires PlainMetadata(o) && Nested(o, Status, HandlePairList).Absent? && Nested(o, Status, InfoList) == Present(v)
    requires SameElsewhere(p, o) && SameElsewhere(q, p) && Metadata in p && v.Array? && forall i | 0 <= i < |v.items| :: v.items[i].Object?
    requires p[Status] == Object(o[Status].fields[HandlePairList := Array(Stripped(v.items))] - {InfoList})
    requires q[Metadata] == Object(o[Metadata].fields[AnnotationMap := Object(AnnotationsOf(o))])
    requires q[Status] == Object(p[Status].fields[InfoList := w] - {HandlePairList})
    ensures Tidy(q) == Tidy(Set(o, Status, InfoList, w))
  {
    var t := Set(o, Status, InfoList, w);
    assert HandlePairList !in o[Status].fields;
    assert p[Status].fields[InfoList := w] - {HandlePairList} == o[Status].fields[InfoList := w];
    SameWhenTidy(q, t);
  }

  /** Two objects that differ only in an empty annotation map. */
  lemma SameWhenTidy(q: Fields, o: Fields)
    requires PlainMetadata(o) && q.Keys == o.Keys && (forall f :: f in o && f != Metadata ==> q[f] == o[f])
    requires q[Metadata] == Object(o[Metadata].fields[AnnotationMap := Object(AnnotationsOf(o))])
    ensures Tidy(q) == Tidy(o)
  {
    if AnnotationMap in o[Metadata].fields {
      assert o[Metadata].fields[AnnotationMap := Object(AnnotationsOf(o))] == o[Metadata].fields;
      assert q == o;
    } else {
      assert q[Metadata].fields - {AnnotationMap} == o[Metadata].fields;
    }
  }

  /** Different lists make different objects. */
  lemma ListsMatter(o: Fields, list: Field, w: Json)
    requires Status in o && o[Status].Object? && list in o[Status].fields
    ensures Tidy(Set(o, Status, list, w)) == Tidy(o) <==> w == o[Status].fields[list]
  {
    var t := Set(o, Status, list, w);
    assert Tidy(t)[Status] == t[Status] && Tidy(o)[Status] == o[Status];
    if w == o[Status].fields[list] {
      assert o[Status].fields[list := w] == o[Status].fields;
    } else {
      assert t[Status].fields[list] != o[Status].fields[list];
    }
  }

  /** Down and up is the identity exactly when every number of the list survives being read as a double. */
  lemma DownThenUpIsIdentityIff(o: Fields, d: Decoder)
    requires PlainMetadata(o) && Nested(o, Status, HandlePairList).Absent? && Downgraded(o).Converted?
    ensures Tidy(Upgraded(Downgraded(o).tree, d).tree) == Tidy(o)
            <==> (Nested(o, Status, InfoList).Present? ==>
                    Rounded(Nested(o, Status, InfoList).value, d.round) == Nested(o, Status, InfoList).value)
  {
    DownThenUp(o, d);
    if Nested(o, Status, InfoList).Present? {
      ListsMatter(o, InfoList, Rounded(Nested(o, Status, InfoList).value, d.round));
    }
  }

  /** In particular when they are all exactly representable. */
  lemma DownThenUpIsIdentity(o: Fields, d: Decoder)
    requires PlainMetadata(o) && Nested(o, Status, HandlePairList).Absent? && Downgraded(o).Converted?
    requires Nested(o, Status, InfoList).Present? ==> Exact(Nested(o, Status, InfoList).value, d.round)
    ensures Tidy(Upgraded(Downgraded(o).tree, d).tree) == Tidy(o)
  {
    if Nested(o, Status, InfoList).Present? {
      ExactRoundTrip(Nested(o, Status, InfoList).value, d.round);
    }
    DownThenUpIsIdentityIff(o, d);
  }

  /** The entries carry none of the fields the older version does not know. */
  predicate Lean(items: seq<Json>) {
    forall i | 0 <= i < |items| :: items[i].Object? && items[i].fields.Keys !! DROPPED
  }

  lemma StrippingLean(items: seq<Json>)
    requires forall i | 0 <= i < |items| :: items[i].Object?
    ensures Stripped(items) == items <==> Lean(items)
  {
    forall i | 0 <= i < |items| ensures Stripped(items)[i] == items[i] <==> items[i].fields.Keys !! DROPPED {
      if items[i].fields.Keys !! DROPPED {
        assert items[i].fields - DROPPED == items[i].fields;
      } else {
        assert exists f :: f in items[i].fields && f in DROPPED;
      }
    }
  }

  lemma UntrackedShape(q: Fields, p: Fields, o: Fields, v: Json)
    requires PlainMetadata(o) && SameElsewhere(p, o) && Metadata in p && p[Metadata] == o[Metadata]
    requires SameElsewhere(q, p) && TrackedWith(q, p, Encoded(v))
    requires Status in o && o[Status].Object? && q[Status].Object?
    ensures Tidy(Untracked(q)) == Tidy(o[Status := q[Status]])
  {
    var fields := AnnotationsOf(o)[Tracking := String(Encoded(v))];
    assert Nested(q, Metadata, AnnotationMap) == Present(Object(fields));
    assert fields - {Tracking} == AnnotationsOf(o);
    var u := Untracked(q);
    assert u[Metadata].fields == o[Metadata].fields[AnnotationMap := Object(AnnotationsOf(o))];
    SameWhenTidy(u, o[Status := q[Status]]);
  }

  /** Up and down again: the entries lose what the older version does not know, and the list is kept in the annotation. */
  lemma UpThenDown(o: Fields, d: Decoder, v: Json)
    requires PlainMetadata(o) && Nested(o, Status, InfoList).Absent? && Nested(o, Status, HandlePairList) == Present(v)
    requires v.Array? && forall i | 0 <= i < |v.items| :: v.items[i].Object?
    ensures Upgraded(o, d).Converted? && Downgraded(Upgraded(o, d).tree).Converted?
    ensures Tidy(Untracked(Downgraded(Upgraded(o, d).tree).tree)) == Tidy(Set(o, Status, HandlePairList, Array(Stripped(v.items))))
  {
    assert !(GetAnnotations(o).Map? && Tracking in GetAnnotations(o).value);
    var p := Upgraded(o, d).tree;
    assert p == Remove(Set(o, Status, InfoList, v), Status, HandlePairList);
    assert p[Metadata] == o[Metadata] && Nested(p, Status, InfoList) == Present(v);
    DowngradeShape(p, v);
    var q := Downgraded(p).tree;
    UntrackedShape(q, p, o, v);
    assert InfoList !in o[Status].fields;
    assert q[Status].fields == o[Status].fields[HandlePairList := Array(Stripped(v.items))];
  }

  /** Up and down is the identity, up to the tracking annotation, exactly when the entries are lean. */
  lemma UpThenDownIsIdentityIff(o: Fields, d: Decoder, v: Json)
    requires PlainMetadata(o) && Nested(o, Status, InfoList).Absent? && Nested(o, Status, HandlePairList) == Present(v)
    requires v.Array? && forall i | 0 <= i < |v.items| :: v.items[i].Object?
    ensures Tidy(Untracked(Downgraded(Upgraded(o, d).tree).tree)) == Tidy(o) <==> Lean(v.items)
  {
    UpThenDown(o, d, v);
    StrippingLean(v.items);
    ListsMatter(o, HandlePairList, Array(Stripped(v.items)));
  }

  // ---- In place ----

  datatype Version = V1beta1 | V1beta2 | OtherVersion(version: string)

  datatype Kind = VolumeGroupSnapshotContent | OtherKind(kind: string)

  datatype Reason = SameVersion | WrongKind | WrongVersions | Broken(error: Error) | Unparsable

  class Unstructured {
    var apiVersion: Version
    var kind: Kind
    var tree: Fields

    constructor (v: Version, k: Kind, t: Fields)
      ensures apiVersion == v && kind == k && tree == t
    {
      apiVersion, kind, tree := v, k, t;
    }

    method SetNested(outer: Field, inner: Field, v: Json) returns (ok: bool)
      modifies this`tree
      ensures ok <==> CanSet(old(tree), outer)
      ensures tree == if ok then Set(old(tree), outer, inner, v) else old(tree)
    {
      if outer in tree && !tree[outer].Object? {
        return false;
      }
      var m := map[];
      if outer in tree {
        m := tree[outer].fields;
      }
      tree := tree[outer := Object(m[inner := v])];
      return true;
    }

    method RemoveNested(outer: Field, inner: Field)
      modifies this`tree
      ensures tree == Remove(old(tree), outer, inner)
    {
      if outer in tree && tree[outer].Object? {
        tree := tree[outer := Object(tree[outer].fields - {inner})];
      }
    }

    method WriteAnnotations(a: Annotations)
      modifies this`tree
      ensures tree == SetAnnotations(old(tree), a)
    {
      var _ := SetNested(Metadata, AnnotationMap, Object(map f | f in a :: String(a[f])));
    }

    /** What the conversion leaves when it fails is thrown away by its caller, so nothing is said of it. */
    method FromV1beta1ToV1beta2(d: Decoder) returns (r: Result)
      modifies this`tree
      ensures r == Upgraded(old(tree), d)
      ensures r.Converted? ==> tree == r.tree
    {
      var annotations := GetAnnotations(tree);
      if annotations.Map? && Tracking in annotations.value {
        var v := Unmarshal(annotations.value[Tracking], d);
        if v.None? {
          return Failed(BadAnnotation);
        }
        if !v.value.Array? {
          return Panicked;
        }
        var ok := SetNested(Status, InfoList, v.value);
        if !ok {
          return Failed(NotAMap);
        }
        RemoveNested(Status, HandlePairList);
        WriteAnnotations(annotations.value - {Tracking});
      } else {
        var list := Nested(tree, Status, HandlePairList);
        if list.NoPath? {
          return Failed(NotAMap);
        }
        if list.Present? {
          if !list.value.Array? {
            return Failed(NotAList);
          }
          var ok := SetNested(Status, InfoList, list.value);
          if !ok {
            return Failed(NotAMap);
          }
          RemoveNested(Status, HandlePairList);
        }
      }
      return Converted(tree);
    }

    method FromV1beta2ToV1beta1() returns (r: Result)
      modifies this`tree
      ensures r == Downgraded(old(tree))
      ensures r.Converted? ==> tree == r.tree
    {
      var list := Nested(tree, Status, InfoList);
      if list.NoPath? {
        return Failed(NotAMap);
      }
      if list.Absent? {
        return Converted(tree);
      }
      if !list.value.Array? {
        return Failed(NotAList);
      }
      var items := list.value.items;
      WriteAnnotations(Tracked(GetAnnotations(tree), list.value));
      for i := 0 to |items|
        invariant |items| == |list.value.items|
        invariant forall j | 0 <= j < i :: list.value.items[j].Object? && items[j] == Object(list.value.items[j].fields - DROPPED)
        invariant forall j | i <= j < |items| :: items[j] == list.value.items[j]
      {
        if !items[i].Object? {
          return Failed(BadEntry(i));
        }
        items := items[i := Object(items[i].fields - DROPPED)];
      }
      assert items == Stripped(list.value.items);
      var _ := SetNested(Status, HandlePairList, Array(items));
      RemoveNested(Status, InfoList);
      return Converted(tree);
    }
  }

  // ---- A conversion request ----

  /** An object of a request as parsed, if it parses. */
  datatype Raw = Raw(apiVersion: Version, kind: Kind, tree: Fields) | Unreadable

  datatype One = Good(apiVersion: Version, kind: Kind, tree: Fields) | Bad(reason: Reason) | Crash

  function ConvertOne(raw: Raw, desired: Version, d: Decoder): One {
    if raw.Unreadable? then Bad(Unparsable)
    else if raw.apiVersion == desired then Bad(SameVersion)
    else if raw.kind != VolumeGroupSnapshotContent then Bad(WrongKind)
    else if raw.apiVersion == V1beta1 && desired == V1beta2 then AsOne(Upgraded(raw.tree, d), desired)
    else if raw.apiVersion == V1beta2 && desired == V1beta1 then AsOne(Downgraded(raw.tree), desired)
    else Bad(WrongVersions)
  }

  function AsOne(r: Result, desired: Version): One {
    match r
    case Converted(tree) => Good(desired, VolumeGroupSnapshotContent, tree)
    case Failed(e) => Bad(Broken(e))
    case Panicked => Crash
  }

  datatype Response = Success(objects: seq<One>) | Failure(reason: Reason) | Aborted

  /** What a request is answered with: every object converted, or the first failure. */
  ghost predicate Answers(raws: seq<Raw>, desired: Version, d: Decoder, r: Response) {
    && (r.Success? <==> forall i | 0 <= i < |raws| :: ConvertOne(raws[i], desired, d).Good?)
    && (r.Success? ==> |r.objects| == |raws| && forall i | 0 <= i < |raws| :: r.objects[i] == ConvertOne(raws[i], desired, d))
    && (!r.Success? ==> exists i | 0 <= i < |raws| ::
                          && (forall j | 0 <= j < i :: ConvertOne(raws[j], desired, d).Good?)
                          && ConvertOne(raws[i], desired, d) == if r.Failure? then Bad(r.reason) else Crash)
  }

  // ---- What the clients of each version get ----

  /** The object has a list under that name. */
  predicate Has(o: Fields, list: Field) {
    Nested(o, Status, list).Present?
  }

  predicate IsTracked(o: Fields) {
    GetAnnotations(o).Map? && Tracking in GetAnnotations(o).value
  }

  /**
   A v1beta2 client never sees the old list. It sees the new one exactly if the v1beta1 object had a list, in
   the annotation or in the status, and then that very list, the one in the annotation before the other.
   */
  lemma UpgradedObjects(raw: Raw, d: Decoder)
    requires ConvertOne(raw, V1beta2, d).Good?
    ensures raw.apiVersion == V1beta1 && raw.kind == VolumeGroupSnapshotContent
    ensures var one := ConvertOne(raw, V1beta2, d);
            && one.apiVersion == V1beta2 && one.kind == raw.kind && !Has(one.tree, HandlePairList)
            && (Has(one.tree, InfoList) <==> IsTracked(raw.tree) || Has(raw.tree, HandlePairList) || Has(raw.tree, InfoList))
            && (IsTracked(raw.tree) ==>
                  && Unmarshal(GetAnnotations(raw.tree).value[Tracking], d).Some?
                  && Nested(one.tree, Status, InfoList).value == Unmarshal(GetAnnotations(raw.tree).value[Tracking], d).value)
            && (!IsTracked(raw.tree) && Has(raw.tree, HandlePairList) ==>
                  Nested(one.tree, Status, InfoList) == Nested(raw.tree, Status, HandlePairList))
  {}

  /** An entry as a v1beta1 client knows it: without creation time, readiness and size, otherwise the same. */
  predicate OldEntry(old_: Json, new_: Json) {
    && old_.Object? && new_.Object?
    && CreationTime !in old_.fields && ReadyToUse !in old_.fields && RestoreSize !in old_.fields
    && (forall f <- new_.fields :: f in old_.fields || f == CreationTime || f == ReadyToUse || f == RestoreSize)
    && (forall f <- old_.fields :: f in new_.fields && old_.fields[f] == new_.fields[f])
  }

  /**
   A v1beta1 client never sees the new list. It sees the old one exactly if the v1beta2 object had a list, with
   the entries as it knows them, in order.
   */
  lemma DowngradedObjects(raw: Raw, d: Decoder)
    requires ConvertOne(raw, V1beta1, d).Good?
    ensures raw.apiVersion == V1beta2 && raw.kind == VolumeGroupSnapshotContent
    ensures var one := ConvertOne(raw, V1beta1, d);
            && one.apiVersion == V1beta1 && one.kind == raw.kind && !Has(one.tree, InfoList)
            && (Has(one.tree, HandlePairList) <==> Has(raw.tree, InfoList) || Has(raw.tree, HandlePairList))
            && (Has(raw.tree, InfoList) ==>
                  var olds, news := Nested(one.tree, Status, HandlePairList).value, Nested(raw.tree, Status, InfoList).value;
                  && olds.Array? && news.Array? && |olds.items| == |news.items|
                  && forall i | 0 <= i < |olds.items| :: OldEntry(olds.items[i], news.items[i]))
  {}

  /** Why an object is refused: the first of these that applies. */
  lemma RefusedIff(raw: Raw, desired: Version, d: Decoder)
    ensures ConvertOne(raw, desired, d) == Bad(Unparsable) <==> raw.Unreadable?
    ensures ConvertOne(raw, desired, d) == Bad(SameVersion) <==> raw.Raw? && raw.apiVersion == desired
    ensures ConvertOne(raw, desired, d) == Bad(WrongKind)
            <==> raw.Raw? && raw.apiVersion != desired && raw.kind != VolumeGroupSnapshotContent
    ensures ConvertOne(raw, desired, d) == Bad(WrongVersions)
            <==> raw.Raw? && raw.apiVersion != desired && raw.kind == VolumeGroupSnapshotContent
                 && (raw.apiVersion.OtherVersion? || desired.OtherVersion?)
    ensures ConvertOne(raw, desired, d).Crash?
            <==> raw.Raw? && raw.kind == VolumeGroupSnapshotContent && raw.apiVersion == V1beta1 && desired == V1beta2
                 && IsTracked(raw.tree) && Unmarshal(GetAnnotations(raw.tree).value[Tracking], d).Some?
                 && !Unmarshal(GetAnnotations(raw.tree).value[Tracking], d).value.Array?
  {}

  /** The objects of an answer, sent in again. */
  function Resent(objects: seq<One>): seq<Raw>
    requires forall one <- objects :: one.Good?
  {
    seq(|objects|, i requires 0 <= i < |objects| => Raw(objects[i].apiVersion, objects[i].kind, objects[i].tree))
  }

  /** Stored v1beta2 objects as the API server keeps them. */
  predicate Stored(raws: seq<Raw>) {
    forall i | 0 <= i < |raws| :: raws[i].Raw? && PlainMetadata(raws[i].tree) && !Has(raws[i].tree, HandlePairList)
  }

  /**
   A request for v1beta1 answered, and its answer sent in for v1beta2: it is answered too, with the objects of
   the first request, exactly if all numbers of their lists survive being read as doubles.
   */
  lemma RequestsRoundTrip(raws: seq<Raw>, d: Decoder, down: Response, up: Response)
    requires Stored(raws) && Answers(raws, V1beta1, d, down) && down.Success?
    requires Answers(Resent(down.objects), V1beta2, d, up)
    ensures up.Success? && |up.objects| == |raws|
    ensures forall i | 0 <= i < |raws| ::
              && up.objects[i].Good? && up.objects[i].apiVersion == raws[i].apiVersion && up.objects[i].kind == raws[i].kind
              && (Tidy(up.objects[i].tree) == Tidy(raws[i].tree)
                  <==> (Has(raws[i].tree, InfoList) ==>
                          Rounded(Nested(raws[i].tree, Status, InfoList).value, d.round) == Nested(raws[i].tree, Status, InfoList).value))
  {
    forall i | 0 <= i < |raws|
      ensures ConvertOne(Resent(down.objects)[i], V1beta2, d).Good?
      ensures raws[i].apiVersion == V1beta2 && raws[i].kind == VolumeGroupSnapshotContent
      ensures ConvertOne(Resent(down.objects)[i], V1beta2, d).tree == Upgraded(Downgraded(raws[i].tree).tree, d).tree
      ensures Nested(raws[i].tree, Status, HandlePairList).Absent? && Downgraded(raws[i].tree).Converted?
    {
      assert down.objects[i] == ConvertOne(raws[i], V1beta1, d);
      DownThenUp(raws[i].tree, d);
    }
    forall i | 0 <= i < |raws|
      ensures Tidy(up.objects[i].tree) == Tidy(raws[i].tree)
              <==> (Has(raws[i].tree, InfoList) ==>
                      Rounded(Nested(raws[i].tree, Status, InfoList).value, d.round) == Nested(raws[i].tree, Status, InfoList).value)
    {
      DownThenUpIsIdentityIff(raws[i].tree, d);
    }
  }

  /** A v1beta1 object with a list of objects, not yet tracked. */
  predicate StoredOld(raw: Raw) {
    && raw.Raw? && PlainMetadata(raw.tree) && Nested(raw.tree, Status, InfoList).Absent?
    && Has(raw.tree, HandlePairList) && Nested(raw.tree, Status, HandlePairList).value.Array?
    && forall j | 0 <= j < |Nested(raw.tree, Status, HandlePairList).value.items| ::
         Nested(raw.tree, Status, HandlePairList).value.items[j].Object?
  }

  /** The same the other way round: v1beta1 objects come back, up to the tracking annotation, exactly if their entries are lean. */
  lemma OldRequestsRoundTrip(raws: seq<Raw>, d: Decoder, up: Response, down: Response)
    requires forall i | 0 <= i < |raws| :: StoredOld(raws[i])
    requires Answers(raws, V1beta2, d, up) && up.Success? && Answers(Resent(up.objects), V1beta1, d, down)
    ensures down.Success? && |down.objects| == |raws|
    ensures forall i | 0 <= i < |raws| ::
              && StoredOld(raws[i]) && down.objects[i].Good? && down.objects[i].apiVersion == raws[i].apiVersion
              && (Tidy(Untracked(down.objects[i].tree)) == Tidy(raws[i].tree)
                  <==> Lean(Nested(raws[i].tree, Status, HandlePairList).value.items))
  {
    forall i | 0 <= i < |raws|
      ensures ConvertOne(Resent(up.objects)[i], V1beta1, d).Good? && raws[i].apiVersion == V1beta1
      ensures ConvertOne(Resent(up.objects)[i], V1beta1, d).tree == Downgraded(Upgraded(raws[i].tree, d).tree).tree
    {
      assert up.objects[i] == ConvertOne(raws[i], V1beta2, d);
      UpThenDown(raws[i].tree, d, Nested(raws[i].tree, Status, HandlePairList).value);
    }
    forall i | 0 <= i < |raws|
      ensures Tidy(Untracked(down.objects[i].tree)) == Tidy(raws[i].tree)
              <==> Lean(Nested(raws[i].tree, Status, HandlePairList).value.items)
    {
      UpThenDownIsIdentityIff(raws[i].tree, d, Nested(raws[i].tree, Status, HandlePairList).value);
    }
  }

  /** One object after the other, on copies; the first that fails decides. */
  method DoConversionV1(raws: seq<Raw>, desired: Version, d: Decoder) returns (r: Response)
    ensures Answers(raws, desired, d, r)
  {
    var converted: seq<One> := [];
    for i := 0 to |raws|
      invariant |converted| == i
      invariant forall j | 0 <= j < i :: ConvertOne(raws[j], desired, d).Good? && converted[j] == ConvertOne(raws[j], desired, d)
    {
      var one := ConvertGroupSnapshotCRD(raws[i], desired, d);
      if one.Bad? {
        return Failure(one.reason);
      }
      if one.Crash? {
        return Aborted;
      }
      converted := converted + [one];
    }
    return Success(converted);
  }

  method ConvertGroupSnapshotCRD(raw: Raw, desired: Version, d: Decoder) returns (one: One)
    ensures one == ConvertOne(raw, desired, d)
  {
    if raw.Unreadable? {
      return Bad(Unparsable);
    }
    if raw.apiVersion == desired {
      return Bad(SameVersion);
    }
    if raw.kind != VolumeGroupSnapshotContent {
      return Bad(WrongKind);
    }
    var copy := new Unstructured(raw.apiVersion, raw.kind, raw.tree);
    var r;
    if raw.apiVersion == V1beta1 && desired == V1beta2 {
      r := copy.FromV1beta1ToV1beta2(d);
    } else if raw.apiVersion == V1beta2 && desired == V1beta1 {
      r := copy.FromV1beta2ToV1beta1();
    } else {
      return Bad(WrongVersions);
    }
    if r.Converted? {
      copy.apiVersion := desired;
      return Good(copy.apiVersion, copy.kind, copy.tree);
    }
    return AsOne(r, desired);
  }
}
