/** The order in which a room's users are shown: owner first, then streaming users, then by name. */
module ViewOrder {
  import opened Domain

  /** Go's `<` on strings. */
  predicate StringLess(a: string, b: string) {
    if a == [] || b == [] then a == [] && b != []
    else if a[0] != b[0] then a[0] < b[0]
    else StringLess(a[1..], b[1..])
  }

  /** a and b agree up to k, and there a ends before b does or has the smaller character. */
  ghost predicate LessAt(a: string, b: string, k: nat) {
    k <= |a| && k < |b| && a[..k] == b[..k] && (k == |a| || a[k] < b[k])
  }

  lemma LessAtHead(a: string, b: string)
    ensures forall k: nat | LessAt(a, b, k) ::
      b != [] && if k == 0 then a == [] || a[0] < b[0] else a != [] && a[0] == b[0]
  {
    forall k: nat | LessAt(a, b, k) ensures k > 0 ==> a[0] == b[0] {
      if k > 0 {
        assert a[..k][0] == b[..k][0];
      }
    }
  }

  lemma {:induction false} StringLessExactly(a: string, b: string)
    ensures StringLess(a, b) <==> exists k: nat :: LessAt(a, b, k)
  {
    LessAtHead(a, b);
    if a == [] && b != [] {
      assert LessAt(a, b, 0);
    } else if a != [] && b != [] && a[0] < b[0] {
      assert LessAt(a, b, 0);
    } else if a != [] && b != [] && a[0] == b[0] {
      StringLessExactly(a[1..], b[1..]);
      if k: nat :| LessAt(a[1..], b[1..], k) {
        assert a[..k + 1] == [a[0]] + a[1..][..k] && b[..k + 1] == [b[0]] + b[1..][..k];
        assert LessAt(a, b, k + 1);
      }
      if k: nat :| LessAt(a, b, k) {
        assert k > 0 && a[1..][..k - 1] == a[..k][1..] && b[1..][..k - 1] == b[..k][1..];
        assert LessAt(a[1..], b[1..], k - 1);
      }
    }
  }

  /** The comparison that is handed to sort.Slice. */
  predicate Less(left: UserView, right: UserView) {
    if left.owner != right.owner then left.owner
    else if left.streaming != right.streaming then left.streaming
    else StringLess(left.name, right.name)
  }

  predicate Sorted(view: seq<UserView>) {
    forall i, j | 0 <= i < j < |view| :: !Less(view[j], view[i])
  }

  lemma {:induction false} StringLessIsAsymmetric(a: string, b: string)
    ensures !(StringLess(a, b) && StringLess(b, a))
  {
    if a != [] && b != [] && a[0] == b[0] {
      StringLessIsAsymmetric(a[1..], b[1..]);
    }
  }

  /** Not being above is transitive: together with asymmetry, what sort.Slice asks of its comparison. */
  lemma {:induction false} StringNotLessIsTransitive(a: string, b: string, c: string)
    requires !StringLess(b, a) && !StringLess(c, b)
    ensures !StringLess(c, a)
  {
    if a != [] && b != [] && c != [] && a[0] == b[0] == c[0] {
      StringNotLessIsTransitive(a[1..], b[1..], c[1..]);
    }
  }

  lemma {:induction false} StringLessIsTotal(a: string, b: string)
    requires !StringLess(a, b) && !StringLess(b, a)
    ensures a == b
  {
    if a != [] && b != [] {
      StringLessIsTotal(a[1..], b[1..]);
      assert a == [a[0]] + a[1..] && b == [b[0]] + b[1..];
    }
  }

  lemma LessIsStrictWeakOrder(a: UserView, b: UserView, c: UserView)
    ensures !(Less(a, b) && Less(b, a))
    ensures !Less(b, a) && !Less(c, b) ==> !Less(c, a)
    ensures !Less(a, b) && !Less(b, a) ==> a.owner == b.owner && a.streaming == b.streaming && a.name == b.name
  {
    StringLessIsAsymmetric(a.name, b.name);
    if !StringLess(a.name, b.name) && !StringLess(b.name, a.name) {
      StringLessIsTotal(a.name, b.name);
    }
    if !StringLess(b.name, a.name) && !StringLess(c.name, b.name) {
      StringNotLessIsTransitive(a.name, b.name, c.name);
    }
  }

  /** What a sorted view means to its reader. */
  lemma SortedMeans(view: seq<UserView>, i: nat, j: nat)
    requires Sorted(view) && i < j < |view|
    ensures view[j].owner ==> view[i].owner
    ensures view[i].owner == view[j].owner && view[j].streaming ==> view[i].streaming
    ensures view[i].owner == view[j].owner && view[i].streaming == view[j].streaming
            ==> view[i].name == view[j].name || StringLess(view[i].name, view[j].name)
  {
    assert !Less(view[j], view[i]);
    if !StringLess(view[i].name, view[j].name) && !StringLess(view[j].name, view[i].name) {
      StringLessIsTotal(view[i].name, view[j].name);
    }
  }

  /** Position at which v goes into a sorted view. */
  method InsertionPoint(view: seq<UserView>, v: UserView) returns (k: nat)
    requires Sorted(view)
    ensures k <= |view|
    ensures forall i | 0 <= i < k :: !Less(v, view[i])
    ensures forall i | k <= i < |view| :: !Less(view[i], v)
  {
    k := |view|;
    while k > 0 && Less(v, view[k - 1])
      invariant k <= |view|
      invariant forall i | k <= i < |view| :: !Less(view[i], v)
    {
      k := k - 1;
      LessIsStrictWeakOrder(v, view[k], v);
    }
    forall i | 0 <= i < k ensures !Less(v, view[i]) {
      if i < k - 1 {
        assert !Less(view[k - 1], view[i]);
        LessIsStrictWeakOrder(view[i], view[k - 1], v);
      }
    }
  }

  lemma InsertedIsSorted(view: seq<UserView>, v: UserView, k: nat)
    requires Sorted(view) && k <= |view|
    requires forall i | 0 <= i < k :: !Less(v, view[i])
    requires forall i | k <= i < |view| :: !Less(view[i], v)
    ensures Sorted(view[..k] + [v] + view[k..])
  {
    hide Less;
    var after := view[..k] + [v] + view[k..];
    assert forall i | 0 <= i < k :: after[i] == view[i];
    assert forall i | k < i < |after| :: after[i] == view[i - 1];
  }

  /** Stands for sort.Slice, which may place equal elements in any order. */
  method SortViews(users: seq<UserView>) returns (view: seq<UserView>)
    ensures Sorted(view)
    ensures multiset(view) == multiset(users)
  {
    view := [];
    for n := 0 to |users|
      invariant Sorted(view)
      invariant multiset(view) == multiset(users[..n])
    {
      var v := users[n];
      var k := InsertionPoint(view, v);
      InsertedIsSorted(view, v, k);
      assert view == view[..k] + view[k..];
      view := view[..k] + [v] + view[k..];
      assert users[..n + 1] == users[..n] + [v];
    }
    assert users[..|users|] == users;
  }
}
