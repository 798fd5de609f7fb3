/** What reading finds after a set or an unset, on the path and off it. */
module LensLaws {
  import opened Basics
  import opened PathLens

  // ----- Array indexes -----

  /** Two different segments never name the same slot. */
  lemma {:induction false} SameNumber(a: string, b: string)
    requires Digits(a) && Digits(b) && (a[0] != '0' || |a| == 1) && (b[0] != '0' || |b| == 1)
    requires Number(a) == Number(b)
    ensures a == b
    decreases |a|
  {
    LeadingDigit(a);
    LeadingDigit(b);
    if |a| > 1 && |b| > 1 {
      var x, y := a[..|a| - 1], b[..|b| - 1];
      assert Number(a) / 10 == Number(x) && Number(b) / 10 == Number(y);
      SameNumber(x, y);
      assert a == x + [a[|a| - 1]] && b == y + [b[|b| - 1]];
    } else {
      OneDigit(a);
      OneDigit(b);
    }
  }

  lemma {:induction false} LeadingDigit(a: string)
    requires Digits(a) && (a[0] != '0' || |a| == 1)
    ensures |a| > 1 ==> Number(a) >= 10
    ensures a[0] != '0' ==> Number(a) >= 1
  {
    if |a| > 1 {
      LeadingDigit(a[..|a| - 1]);
    } else {
      OneDigit(a);
    }
  }

  lemma {:induction false} OneDigit(a: string)
    requires Digits(a)
    ensures |a| == 1 ==> Number(a) == a[0] as int - '0' as int
  {
    if |a| == 1 { assert a[..0] == ""; }
  }

  lemma {:induction false} IndexesDiffer(a: string, b: string)
    requires a != b && IndexOf(a).Some? && IndexOf(b).Some?
    ensures IndexOf(a) != IndexOf(b)
  {
    if Number(a) == Number(b) { SameNumber(a, b); }
  }

  // ----- One level -----

  lemma {:induction false} WrittenChild(n: Node, segment: string, v: Node)
    requires Container(n) && WriteChild(n, segment, v).Success?
    ensures Child(WriteChild(n, segment, v).value, segment) == Success(Some(v))
  {
    if n.Object? { GetPut(n.fields, segment, v, segment); }
  }

  lemma {:induction false} OtherChild(n: Node, segment: string, v: Node, other: string)
    requires Container(n) && WriteChild(n, segment, v).Success? && other != segment
    ensures Child(WriteChild(n, segment, v).value, other) == Child(n, other)
  {
    if n.Object? {
      GetPut(n.fields, segment, v, other);
    } else if IndexOf(other).Some? {
      IndexesDiffer(segment, other);
    }
  }

  lemma {:induction false} WriteTwice(n: Node, segment: string, v: Node, w: Node)
    requires Container(n) && WriteChild(n, segment, v).Success?
    ensures WriteChild(WriteChild(n, segment, v).value, segment, w) == WriteChild(n, segment, w)
  {
    if n.Object? {
      GetPut(n.fields, segment, v, segment);
      PutTwice(n.fields, segment, v, w);
    } else {
      var i := IndexOf(segment).value;
      assert PutItem(PutItem(n.items, i, v), i, w) == PutItem(n.items, i, w);
    }
  }

  lemma {:induction false} PutTwice(d: Dict<Node>, key: string, v: Node, w: Node)
    ensures Put(Put(d, key, v), key, w) == Put(d, key, w)
  {
    var p, i := Put(d, key, v), KeyIndex(d, key);
    assert forall j | 0 <= j < i :: p[j] == if j < |d| then d[j] else p[j];
    assert p[i].0 == key;
    assert KeyIndex(p, key) == i;
  }

  lemma {:induction false} WriteSame(n: Node, segment: string)
    requires Container(n) && Child(n, segment).Success? && Child(n, segment).value.Some?
    ensures WriteChild(n, segment, Child(n, segment).value.value) == Success(n)
  {
    if n.Object? {
      var i := KeyIndex(n.fields, segment);
      assert n.fields[i := (segment, n.fields[i].1)] == n.fields;
    } else {
      var i := IndexOf(segment).value;
      assert n.items[i := n.items[i]] == n.items;
    }
  }

  // ----- Set -----

  /** Reading what was set gives the value, wherever the path led. */
  lemma {:induction false} ReadAfterSet(n: Node, path: seq<string>, v: Node)
    requires Container(n) && path != [] && Set(n, path, v).Success?
    ensures Read(Set(n, path, v).value, path) == Success(Some(v))
    decreases |path|
  {
    if |path| == 1 {
      WrittenChild(n, path[0], v);
      assert path[1..] == [];
    } else {
      var child := Descend(n, path[0], path[1]).value;
      var below := Set(child, path[1..], v).value;
      WrittenChild(n, path[0], below);
      ReadAfterSet(child, path[1..], v);
    }
  }

  /** The last of two sets at one path wins, even where the first had to make containers. */
  lemma {:induction false} SetTwice(n: Node, path: seq<string>, v: Node, w: Node)
    requires Container(n) && path != [] && Set(n, path, v).Success?
    ensures Set(Set(n, path, v).value, path, w) == Set(n, path, w)
    decreases |path|
  {
    if |path| == 1 {
      WriteTwice(n, path[0], v, w);
    } else {
      var child := Descend(n, path[0], path[1]).value;
      var below := Set(child, path[1..], v).value;
      WrittenChild(n, path[0], below);
      SetTwice(child, path[1..], v, w);
      assert Descend(WriteChild(n, path[0], below).value, path[0], path[1]) == Success(below);
      var again := Set(below, path[1..], w);
      if again.Success? { WriteTwice(n, path[0], below, again.value); }
    }
  }

  /** Setting what is already there changes nothing. */
  lemma {:induction false} SetWhatIsThere(n: Node, path: seq<string>)
    requires Container(n) && path != [] && Read(n, path).Success? && Read(n, path).value.Some?
    ensures Set(n, path, Read(n, path).value.value) == Success(n)
    decreases |path|
  {
    WriteSame(n, path[0]);
    if |path| == 1 {
      assert path[1..] == [];
    } else {
      SetWhatIsThere(Child(n, path[0]).value.value, path[1..]);
    }
  }

  /** Neither path leads through the other. */
  predicate Diverges(p: seq<string>, q: seq<string>)
    decreases |p|
  {
    p != [] && q != [] && (p[0] != q[0] || Diverges(p[1..], q[1..]))
  }

  /** Off the set path, a made array is asked for a key that is no index. */
  predicate TripsFresh(p: seq<string>, q: seq<string>)
    requires Diverges(p, q)
    decreases |p|
  {
    if p[0] != q[0] then IndexOf(p[0]).Some? && IndexOf(q[0]).None? else TripsFresh(p[1..], q[1..])
  }

  /** That happens below the containers that are there already. */
  predicate Trips(n: Node, p: seq<string>, q: seq<string>)
    requires Container(n) && Diverges(p, q)
    decreases |p|
  {
    if p[0] != q[0] then false
    else
      var child := Child(n, p[0]);
      if child.Success? && child.value.Some? && Container(child.value.value) then Trips(child.value.value, p[1..], q[1..])
      else TripsFresh(p[1..], q[1..])
  }

  lemma {:induction false} FreshReads(p: seq<string>, q: seq<string>, v: Node)
    requires Diverges(p, q) && Set(Fresh(p[0]), p, v).Success?
    ensures Read(Set(Fresh(p[0]), p, v).value, q) == if TripsFresh(p, q) then Failure(BadIndex) else Success(None)
    decreases |p|
  {
    var n := Fresh(p[0]);
    if p[0] != q[0] {
      var written := if |p| == 1 then v else Set(Descend(n, p[0], p[1]).value, p[1..], v).value;
      OtherChild(n, p[0], written, q[0]);
    } else {
      var child := Descend(n, p[0], p[1]).value;
      assert child == Fresh(p[1]);
      var below := Set(child, p[1..], v).value;
      WrittenChild(n, p[0], below);
      FreshReads(p[1..], q[1..], v);
    }
  }

  /**
    A path that diverges from the set path reads as before, except exactly when
    it asks an array that the set had to make for something other than an index:
    then reading fails where it found nothing.
   */
  lemma {:induction false} ReadElsewhere(n: Node, p: seq<string>, q: seq<string>, v: Node)
    requires Container(n) && Diverges(p, q) && Set(n, p, v).Success?
    ensures Read(Set(n, p, v).value, q) == if Trips(n, p, q) then Failure(BadIndex) else Read(n, q)
    ensures Trips(n, p, q) ==> Read(n, q) == Success(None)
    decreases |p|
  {
    if p[0] != q[0] {
      var written := if |p| == 1 then v else Set(Descend(n, p[0], p[1]).value, p[1..], v).value;
      OtherChild(n, p[0], written, q[0]);
    } else {
      var child := Descend(n, p[0], p[1]).value;
      var below := Set(child, p[1..], v).value;
      WrittenChild(n, p[0], below);
      var had := Child(n, p[0]).value;
      if had.Some? && Container(had.value) {
        ReadElsewhere(child, p[1..], q[1..], v);
      } else {
        FreshReads(p[1..], q[1..], v);
      }
    }
  }

  // ----- Unset -----

  /** No object has a key twice. */
  predicate Tidy(n: Node) {
    match n
    case Leaf(_) => true
    case Object(fields) => DistinctKeys(fields) && forall i | 0 <= i < |fields| :: Tidy(fields[i].1)
    case Array(items) => forall i | 0 <= i < |items| :: items[i].Some? ==> Tidy(items[i].value)
  }

  /** Reading on from a slot. */
  function ReadItem(items: seq<Option<Node>>, j: nat, rest: seq<string>): Result<Option<Node>, PathError> {
    if j < |items| && items[j].Some? then Read(items[j].value, rest) else Success(None)
  }

  /** What reading q should find once p is unset: the key gone, later slots one lower, all else as before. */
  function Expected(n: Node, p: seq<string>, q: seq<string>): Result<Option<Node>, PathError>
    requires p != [] && q != []
    decreases |p|
  {
    if !Container(n) then Read(n, q)
    else if |p| == 1 then
      match n
      case Object(_) => if q[0] == p[0] then Success(None) else Read(n, q)
      case Array(items) =>
        var i, j := IndexOf(p[0]), IndexOf(q[0]);
        if i.None? || i.value >= |items| || j.None? then Read(n, q)
        else ReadItem(items, if j.value < i.value then j.value else j.value + 1, q[1..])
    else if q[0] != p[0] || |q| == 1 then Read(n, q)
    else
      var child := Child(n, p[0]);
      if child.Success? && child.value.Some? && Container(child.value.value) then Expected(child.value.value, p[1..], q[1..])
      else Read(n, q)
  }

  lemma {:induction false} TidyChild(n: Node, segment: string)
    requires Tidy(n) && Container(n) && Child(n, segment).Success? && Child(n, segment).value.Some?
    ensures Tidy(Child(n, segment).value.value)
  {
  }

  lemma {:induction false} DroppedChild(n: Node, segment: string, q: seq<string>)
    requires Container(n) && Tidy(n) && q != [] && DropChild(n, segment).Success?
    ensures Read(DropChild(n, segment).value, q) == Expected(n, [segment], q)
  {
    if n.Object? {
      GetRemove(n.fields, segment, q[0]);
    } else {
      var i, j := IndexOf(segment).value, IndexOf(q[0]);
      if i < |n.items| && j.Some? {
        var left := n.items[..i] + n.items[i + 1..];
        assert j.value < |left| ==> left[j.value] == n.items[if j.value < i then j.value else j.value + 1];
      }
    }
  }

  /** Reading any path that is not above the unset one finds exactly what is expected. */
  lemma {:induction false} ReadAfterUnset(n: Node, p: seq<string>, q: seq<string>)
    requires Tidy(n) && p != [] && q != [] && Unset(n, p).Success? && !(q < p)
    ensures Read(Unset(n, p).value, q) == Expected(n, p, q)
    decreases |p|
  {
    if Container(n) {
      if |p| == 1 {
        assert p == [p[0]];
        DroppedChild(n, p[0], q);
      } else {
        var child := Child(n, p[0]).value;
        if child.Some? && Container(child.value) {
          var below := Unset(child.value, p[1..]).value;
          if q[0] == p[0] {
            WrittenChild(n, p[0], below);
            BelowAlso(p, q);
            TidyChild(n, p[0]);
            ReadAfterUnset(child.value, p[1..], q[1..]);
          } else {
            OtherChild(n, p[0], below, q[0]);
          }
        }
      }
    }
  }

  lemma {:induction false} BelowAlso(p: seq<string>, q: seq<string>)
    requires |p| > 1 && q != [] && p[0] == q[0]
    ensures |q| == 1 ==> q < p
    ensures q[1..] < p[1..] ==> q < p
  {
    assert q == [q[0]] + q[1..] && p == [p[0]] + p[1..];
  }

  /** An unset object key is absent: nothing is read at the path or below it. */
  lemma {:induction false} UnsetKeyIsAbsent(n: Node, p: seq<string>, more: seq<string>)
    requires Tidy(n) && Container(n) && p != [] && Unset(n, p).Success? && ObjectKey(n, p)
    ensures Read(Unset(n, p).value, p + more) == Success(None)
  {
    var q := p + more;
    assert !(q < p);
    ReadAfterUnset(n, p, q);
    AbsentExpected(n, p, q);
  }

  /** The last segment is a key of an object, or the path does not lead that far. */
  predicate ObjectKey(n: Node, p: seq<string>)
    requires p != []
    decreases |p|
  {
    if !Container(n) then true
    else if |p| == 1 then n.Object?
    else
      var child := Child(n, p[0]);
      child.Success? && (child.value.Some? ==> ObjectKey(child.value.value, p[1..]))
  }

  lemma {:induction false} AbsentExpected(n: Node, p: seq<string>, q: seq<string>)
    requires p != [] && p <= q && ObjectKey(n, p)
    ensures Expected(n, p, q) == Success(None)
    decreases |p|
  {
    if Container(n) && |p| > 1 {
      var child := Child(n, p[0]).value;
      assert p[1..] <= q[1..] && q[0] == p[0] && q[1..] != [];
      if child.Some? {
        if Container(child.value) {
          AbsentExpected(child.value, p[1..], q[1..]);
        } else {
          assert Read(child.value, q[1..]) == Success(None);
        }
      }
    }
  }

  // ----- What the file keeps -----

  /** A document without holes. */
  predicate Whole(n: Node) {
    match n
    case Leaf(_) => true
    case Object(fields) => forall i | 0 <= i < |fields| :: Whole(fields[i].1)
    case Array(items) => forall i | 0 <= i < |items| :: items[i].Some? && Whole(items[i].value)
  }

  /** The path ends in a hole of an array. */
  predicate EndsInHole(n: Node, q: seq<string>)
    decreases |q|
  {
    && q != []
    && match n
       case Leaf(_) => false
       case Object(fields) => Has(fields, q[0]) && EndsInHole(Get(fields, q[0]), q[1..])
       case Array(items) =>
         var i := IndexOf(q[0]);
         i.Some? && i.value < |items|
         && if items[i.value].Some? then EndsInHole(items[i.value].value, q[1..]) else |q| == 1
  }

  lemma {:induction false} SavedKeys(fields: Dict<Node>, key: string)
    ensures var saved := Saved(Object(fields)).fields;
            |saved| == |fields| && KeyIndex(saved, key) == KeyIndex(fields, key)
  {
    var saved := Saved(Object(fields)).fields;
    assert forall i | 0 <= i < |fields| :: saved[i].0 == fields[i].0;
    var i, j := KeyIndex(saved, key), KeyIndex(fields, key);
    assert i < |saved| ==> fields[i].0 == key;
    assert j < |fields| ==> saved[j].0 == key;
  }

  /** What a segment leads to in the file. */
  lemma {:induction false} SavedChild(n: Node, segment: string)
    requires Container(n)
    ensures var was := Child(n, segment);
            if was.Failure? then Child(Saved(n), segment) == was
            else if was.value.Some? then Child(Saved(n), segment) == Success(Some(Saved(was.value.value)))
            else Child(Saved(n), segment) == Success(if EndsInHole(n, [segment]) then Some(NULL) else None)
  {
    match n
    case Object(fields) =>
      SavedKeys(fields, segment);
    case Array(items) =>
  }

  /** Reading the file finds what reading the document found, and null where the document has a hole. */
  lemma {:induction false} ReadSaved(n: Node, q: seq<string>)
    ensures var was := Read(n, q);
            Read(Saved(n), q)
            == if was.Success? && was.value.Some? then Success(Some(Saved(was.value.value)))
               else if EndsInHole(n, q) then Success(Some(NULL))
               else was
    ensures EndsInHole(n, q) ==> Read(n, q) == Success(None)
    decreases |q|
  {
    if q != [] && Container(n) {
      SavedChild(n, q[0]);
      var child := Child(n, q[0]);
      if child.Success? && child.value.Some? {
        ReadSaved(child.value.value, q[1..]);
      } else if q[1..] == [] {
        assert q == [q[0]];
      }
    }
  }

  /** Writing and reading back gives the document itself exactly when it has no holes. */
  lemma {:induction false} SavedIffWhole(n: Node)
    ensures Saved(n) == n <==> Whole(n)
  {
    match n
    case Leaf(_) =>
    case Object(fields) =>
      forall i | 0 <= i < |fields| ensures Saved(fields[i].1) == fields[i].1 <==> Whole(fields[i].1) { SavedIffWhole(fields[i].1); }
      var saved := Saved(n).fields;
      assert forall i | 0 <= i < |fields| :: saved[i] == (fields[i].0, Saved(fields[i].1));
      if Whole(n) { assert saved == fields; }
    case Array(items) =>
      forall i | 0 <= i < |items| && items[i].Some? ensures Saved(items[i].value) == items[i].value <==> Whole(items[i].value) {
        SavedIffWhole(items[i].value);
      }
      var saved := Saved(n).items;
      assert forall i | 0 <= i < |items| :: saved[i] == Some(if items[i].Some? then Saved(items[i].value) else NULL);
      if Whole(n) { assert saved == items; }
  }

  lemma {:induction false} SavedIsWhole(n: Node)
    ensures Whole(Saved(n))
  {
    match n
    case Leaf(_) =>
    case Object(fields) =>
      forall i | 0 <= i < |fields| ensures Whole(Saved(fields[i].1)) { SavedIsWhole(fields[i].1); }
    case Array(items) =>
      forall i | 0 <= i < |items| && items[i].Some? ensures Whole(Saved(items[i].value)) { SavedIsWhole(items[i].value); }
  }

  // ----- Where a set leaves holes -----

  /** The container that a set goes on into: the one there, or the one it makes. */
  function Below(n: Node, segment: string, next: string): (r: Node)
    requires Container(n)
    ensures Container(r)
  {
    var child := Child(n, segment);
    if child.Success? && child.value.Some? && Container(child.value.value) then child.value.value else Fresh(next)
  }

  /** Writing to slot `segment` extends an array past its end and leaves slot `other` in between. */
  predicate SkipsSlot(n: Node, segment: string, other: string) {
    && n.Array? && IndexOf(segment).Some? && IndexOf(other).Some?
    && |n.items| <= IndexOf(other).value < IndexOf(segment).value
  }

  /** Setting p leaves a hole at q, or one is there already. */
  predicate HoleAt(n: Node, p: seq<string>, q: seq<string>)
    requires Container(n) && Diverges(p, q)
    decreases |p|
  {
    if p[0] != q[0] then EndsInHole(n, q) || (|q| == 1 && SkipsSlot(n, p[0], q[0]))
    else
      assert Diverges(p[1..], q[1..]);
      HoleAt(Below(n, p[0], p[1]), p[1..], q[1..])
  }

  /** Some array on the way, there or made, is extended past its end. */
  predicate LeavesHoles(n: Node, p: seq<string>)
    requires Container(n) && p != []
    decreases |p|
  {
    || (n.Array? && IndexOf(p[0]).Some? && IndexOf(p[0]).value > |n.items|)
    || (|p| > 1 && LeavesHoles(Below(n, p[0], p[1]), p[1..]))
  }

  /** Holes are entered through the slot that the first segment leads to. */
  lemma {:induction false} HoleBelow(n: Node, q: seq<string>)
    requires Container(n) && q != [] && Child(n, q[0]).Success? && Child(n, q[0]).value.Some?
    ensures EndsInHole(n, q) <==> EndsInHole(Child(n, q[0]).value.value, q[1..])
  {
  }

  lemma {:induction false} HoleBeside(n: Node, segment: string, v: Node, q: seq<string>)
    requires Container(n) && WriteChild(n, segment, v).Success? && q != [] && q[0] != segment
    ensures EndsInHole(WriteChild(n, segment, v).value, q) <==> EndsInHole(n, q) || (|q| == 1 && SkipsSlot(n, segment, q[0]))
  {
    OtherChild(n, segment, v, q[0]);
    if n.Object? {
      GetPut(n.fields, segment, v, q[0]);
    } else if IndexOf(q[0]).Some? {
      IndexesDiffer(segment, q[0]);
    }
  }

  /** Off the set path, the holes are those that were there and the slots that the set skipped. */
  lemma {:induction false} HoleAfterSetIff(n: Node, p: seq<string>, v: Node, q: seq<string>)
    requires Container(n) && Diverges(p, q) && Set(n, p, v).Success?
    ensures EndsInHole(Set(n, p, v).value, q) <==> HoleAt(n, p, q)
    decreases |p|
  {
    if p[0] != q[0] {
      var written := if |p| == 1 then v else Set(Below(n, p[0], p[1]), p[1..], v).value;
      HoleBeside(n, p[0], written, q);
    } else {
      var below := Set(Below(n, p[0], p[1]), p[1..], v).value;
      WrittenChild(n, p[0], below);
      HoleBelow(WriteChild(n, p[0], below).value, q);
      HoleAfterSetIff(Below(n, p[0], p[1]), p[1..], v, q[1..]);
    }
  }

  lemma {:induction false} WrittenWhole(n: Node, segment: string, v: Node)
    requires Container(n) && Whole(n) && WriteChild(n, segment, v).Success?
    ensures Whole(WriteChild(n, segment, v).value) <==> Whole(v) && !(n.Array? && IndexOf(segment).value > |n.items|)
  {
    match n
    case Object(fields) =>
      var put := Put(fields, segment, v);
      var i := KeyIndex(fields, segment);
      assert put[i].1 == v && forall j | 0 <= j < |put| && j != i :: put[j] == fields[j];
    case Array(items) =>
      var i := IndexOf(segment).value;
      var put := PutItem(items, i, v);
      assert put[i] == Some(v) && forall j | 0 <= j < |put| && j != i :: put[j] == if j < |items| then items[j] else None;
      if i > |items| { assert put[|items|].None?; }
  }

  /** A set keeps a document whole exactly when the value is whole and every index is within its array or next after it. */
  lemma {:induction false} SetStaysWholeIff(n: Node, p: seq<string>, v: Node)
    requires Container(n) && p != [] && Whole(n) && Set(n, p, v).Success?
    ensures Whole(Set(n, p, v).value) <==> Whole(v) && !LeavesHoles(n, p)
    decreases |p|
  {
    if |p| == 1 {
      WrittenWhole(n, p[0], v);
    } else {
      var child := Below(n, p[0], p[1]);
      assert Whole(child);
      SetStaysWholeIff(child, p[1..], v);
      WrittenWhole(n, p[0], Set(child, p[1..], v).value);
    }
  }

  /**
    A set as the file shows it: the value is there, a diverging path reads as
    before, null stands where there was a hole or the set skipped a slot, and
    the failing case is the same.
   */
  lemma {:induction false} SetInFile(n: Node, p: seq<string>, v: Node, q: seq<string>)
    requires Container(n) && Diverges(p, q) && Set(n, p, v).Success?
    ensures var file, was := Saved(Set(n, p, v).value), Read(n, q);
            && Read(file, p) == Success(Some(Saved(v)))
            && Read(file, q)
               == if Trips(n, p, q) then Failure(BadIndex)
                  else if was.Success? && was.value.Some? then Success(Some(Saved(was.value.value)))
                  else if HoleAt(n, p, q) then Success(Some(NULL))
                  else was
  {
    ReadAfterSet(n, p, v);
    ReadElsewhere(n, p, q, v);
    HoleAfterSetIff(n, p, v, q);
    ReadSaved(Set(n, p, v).value, p);
    ReadSaved(Set(n, p, v).value, q);
  }

  // ----- Inputs that show the exceptions -----

  lemma {:induction false} ShortIndexes()
    ensures IndexOf("0") == Some(0) && IndexOf("1") == Some(1)
    ensures IndexOf("a").None? && IndexOf("x").None?
  {
    OneDigit("0");
    OneDigit("1");
  }

  /** Setting a slot of a missing array makes another key below it fail, where nothing was found before. */
  lemma {:induction false} MadeArrayTrips(v: Node)
    ensures var n, p, q := Object([]), ["a", "0"], ["a", "x"];
            && Diverges(p, q) && Set(n, p, v).Success?
            && Read(n, q) == Success(None)
            && Read(Set(n, p, v).value, q) == Failure(BadIndex)
  {
    var n, p, q := Object([]), ["a", "0"], ["a", "x"];
    ShortIndexes();
    assert p[1..] == ["0"] && q[1..] == ["x"];
    assert Set(Fresh("0"), ["0"], v).Success?;
    assert !Has(n.fields, "a");
    assert TripsFresh(["0"], ["x"]);
    ReadElsewhere(n, p, q, v);
  }

  /** Setting slot 1 of an empty array leaves null in slot 0 of the file, where nothing was found before. */
  lemma {:induction false} SkippedSlotIsNull(v: Node)
    ensures var n, p, q := Object([("a", Array([]))]), ["a", "1"], ["a", "0"];
            && Diverges(p, q) && Set(n, p, v).Success?
            && Read(n, q) == Success(None)
            && Read(Saved(Set(n, p, v).value), q) == Success(Some(NULL))
  {
    var n, p, q := Object([("a", Array([]))]), ["a", "1"], ["a", "0"];
    ShortIndexes();
    assert p[1..] == ["1"] && q[1..] == ["0"];
    assert n.fields[0] == ("a", Array([]));
    assert Child(n, "a") == Success(Some(Array([])));
    assert HoleAt(Array([]), ["1"], ["0"]);
    SetInFile(n, p, v, q);
  }
}
