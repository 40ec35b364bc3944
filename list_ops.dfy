/**
 * The whole-list replacements every screen performs, written once over a key
 * function: `list.filter(x => key(x) !== id)`, `list.map(x => key(x) === id ? f(x) : x)`,
 * `list.filter(p).length`, `list.find(p)`, `list.slice(0, k)`, the tag-style
 * membership toggle and the grouping of a list by a key.
 */
module ListOps {
  import opened Basics

  /** `r` is `s` with some elements dropped and the rest in their original order. */
  ghost predicate IsSubsequence<T>(r: seq<T>, s: seq<T>)
  {
    if s == [] then r == []
    else (r != [] && r[0] == s[0] && IsSubsequence(r[1..], s[1..])) || IsSubsequence(r, s[1..])
  }

  /** `s.filter(p).length`. */
  function Count<T>(s: seq<T>, p: T -> bool): (n: nat)
    ensures n <= |s|
  {
    if s == [] then 0 else (if p(s[0]) then 1 else 0) + Count(s[1..], p)
  }

  lemma {:induction false} CountAppend<T>(a: seq<T>, b: seq<T>, p: T -> bool)
    ensures Count(a + b, p) == Count(a, p) + Count(b, p)
  {
    if a == [] {
      assert a + b == b;
    } else {
      assert (a + b)[1..] == a[1..] + b;
      CountAppend(a[1..], b, p);
    }
  }

  /** A predicate that implies another is satisfied by no more elements. */
  lemma {:induction false} CountMonotone<T>(s: seq<T>, p: T -> bool, q: T -> bool)
    requires forall x | x in s :: p(x) ==> q(x)
    ensures Count(s, p) <= Count(s, q)
  {
    if s != [] {
      assert forall x | x in s[1..] :: x in s;
      CountMonotone(s[1..], p, q);
    }
  }

  /** Elements satisfying two exclusive predicates are counted at most once in all. */
  lemma {:induction false} CountDisjoint<T>(s: seq<T>, p: T -> bool, q: T -> bool)
    requires forall x | x in s :: !(p(x) && q(x))
    ensures Count(s, p) + Count(s, q) <= |s|
  {
    if s != [] {
      assert forall x | x in s[1..] :: x in s;
      CountDisjoint(s[1..], p, q);
    }
  }

  /** Every element satisfies `p` exactly when all of them are counted. */
  lemma {:induction false} CountAll<T>(s: seq<T>, p: T -> bool)
    ensures Count(s, p) == |s| <==> forall x | x in s :: p(x)
  {
    if s != [] {
      assert forall x | x in s :: x == s[0] || x in s[1..];
      assert forall x | x in s[1..] :: x in s;
      CountAll(s[1..], p);
    }
  }

  /** Some element satisfies `p` exactly when the count is positive. */
  lemma {:induction false} CountPositive<T>(s: seq<T>, p: T -> bool)
    ensures Count(s, p) > 0 <==> exists x | x in s :: p(x)
  {
    if s != [] {
      assert forall x | x in s :: x == s[0] || x in s[1..];
      assert forall x | x in s[1..] :: x in s;
      CountPositive(s[1..], p);
    }
  }

  /** The number of elements whose key is `id`. */
  function CountKey<T>(s: seq<T>, key: T -> string, id: string): (n: nat)
    ensures n <= |s|
  {
    if s == [] then 0 else (if key(s[0]) == id then 1 else 0) + CountKey(s[1..], key, id)
  }

  /** `s.filter(x => key(x) !== id)`. */
  function RemoveKey<T>(s: seq<T>, key: T -> string, id: string): (r: seq<T>)
    ensures |r| + CountKey(s, key, id) == |s|
    ensures forall x | x in r :: x in s && key(x) != id
    ensures forall x | x in s && key(x) != id :: x in r
  {
    if s == [] then []
    else
      assert forall x | x in s :: x == s[0] || x in s[1..];
      if key(s[0]) == id then RemoveKey(s[1..], key, id)
      else [s[0]] + RemoveKey(s[1..], key, id)
  }

  /** Filtering distributes over concatenation, so the kept elements keep their order. */
  lemma {:induction false} RemoveKeyAppend<T>(a: seq<T>, b: seq<T>, key: T -> string, id: string)
    ensures RemoveKey(a + b, key, id) == RemoveKey(a, key, id) + RemoveKey(b, key, id)
  {
    if a == [] {
      assert a + b == b;
    } else {
      assert (a + b)[0] == a[0];
      assert (a + b)[1..] == a[1..] + b;
      RemoveKeyAppend(a[1..], b, key, id);
    }
  }

  /** The kept elements are a subsequence of the original list. */
  lemma {:induction false} RemoveKeyIsSubsequence<T>(s: seq<T>, key: T -> string, id: string)
    ensures IsSubsequence(RemoveKey(s, key, id), s)
  {
    if s != [] {
      RemoveKeyIsSubsequence(s[1..], key, id);
      if key(s[0]) != id {
        assert ([s[0]] + RemoveKey(s[1..], key, id))[1..] == RemoveKey(s[1..], key, id);
      }
    }
  }

  /** Removing a key no element has changes nothing. */
  lemma {:induction false} RemoveAbsentKey<T>(s: seq<T>, key: T -> string, id: string)
    requires forall x | x in s :: key(x) != id
    ensures RemoveKey(s, key, id) == s
  {
    if s != [] {
      assert forall x | x in s[1..] :: x in s;
      RemoveAbsentKey(s[1..], key, id);
      assert [s[0]] + s[1..] == s;
    }
  }

  /** An element whose key no other element has is the only one removed. */
  lemma {:induction false} RemoveUniqueKey<T>(pre: seq<T>, x: T, post: seq<T>, key: T -> string)
    requires forall y | y in pre :: key(y) != key(x)
    requires forall y | y in post :: key(y) != key(x)
    ensures RemoveKey(pre + [x] + post, key, key(x)) == pre + post
  {
    var s := pre + [x] + post;
    if pre == [] {
      assert s[0] == x && s[1..] == post;
      RemoveAbsentKey(post, key, key(x));
    } else {
      assert s[0] == pre[0] && s[1..] == pre[1..] + [x] + post;
      assert forall y | y in pre[1..] :: y in pre;
      RemoveUniqueKey(pre[1..], x, post, key);
      assert [pre[0]] + (pre[1..] + post) == pre + post;
    }
  }

  /** `s.map(x => key(x) === id ? f(x) : x)`. */
  function UpdateKey<T>(s: seq<T>, key: T -> string, id: string, f: T -> T): (r: seq<T>)
    ensures |r| == |s|
    ensures forall i | 0 <= i < |s| :: r[i] == if key(s[i]) == id then f(s[i]) else s[i]
  {
    if s == [] then []
    else [if key(s[0]) == id then f(s[0]) else s[0]] + UpdateKey(s[1..], key, id, f)
  }

  /** `s.slice(0, k)`: the first `k` elements, or all of them when there are fewer. */
  function Take<T>(s: seq<T>, k: nat): (r: seq<T>)
    ensures |r| == if |s| < k then |s| else k
    ensures r == s[..|r|]
  {
    if |s| < k then s else s[..k]
  }

  /**
   * The tag toggle: `s.includes(x) ? s.filter(y => y !== x) : [...s, x]`.
   * Membership of `x` flips; every other value keeps its membership.
   */
  function ToggleMember(s: seq<string>, x: string): (r: seq<string>)
    ensures x in r <==> x !in s
    ensures forall y | y != x :: y in r <==> y in s
    ensures x !in s ==> r == s + [x]
    ensures x in s ==> r == RemoveKey(s, y => y, x)
  {
    if x in s then RemoveKey(s, y => y, x) else s + [x]
  }

  /** `s.find(p)`: the first element satisfying `p`, or nothing when none does. */
  function Find<T>(s: seq<T>, p: T -> bool): (r: Option<T>)
    ensures r.None? <==> forall i | 0 <= i < |s| :: !p(s[i])
    ensures r.Some? ==> exists i | 0 <= i < |s| :: s[i] == r.value && p(s[i]) && forall j | 0 <= j < i :: !p(s[j])
  {
    if s == [] then None
    else if p(s[0]) then Some(s[0])
    else
      var r := Find(s[1..], p);
      assert forall i | 1 <= i < |s| :: s[i] == s[1..][i - 1];
      r
  }

  /** The first element whose key is `k`, if there is one. */
  function FindKey<T>(s: seq<T>, key: T -> string, k: string): (r: Option<T>)
    ensures r.None? <==> forall i | 0 <= i < |s| :: key(s[i]) != k
    ensures r.Some? ==> r.value in s && key(r.value) == k
    ensures |s| > 0 && key(s[0]) == k ==> r == Some(s[0])
  {
    if s == [] then None
    else if key(s[0]) == k then Some(s[0])
    else
      var r := FindKey(s[1..], key, k);
      assert forall i | 1 <= i < |s| :: s[i] == s[1..][i - 1];
      r
  }

  /** `s.filter(x => key(x) === id)`: the elements with that key, in list order. */
  function KeepKey<T>(s: seq<T>, key: T -> string, id: string): (r: seq<T>)
    ensures |r| == CountKey(s, key, id)
  {
    if s == [] then []
    else if key(s[0]) == id then [s[0]] + KeepKey(s[1..], key, id)
    else KeepKey(s[1..], key, id)
  }

  /** Exactly the elements with the key are kept. */
  lemma {:induction false} KeepKeyMembers<T>(s: seq<T>, key: T -> string, id: string)
    ensures forall x | x in KeepKey(s, key, id) :: x in s && key(x) == id
    ensures forall x | x in s && key(x) == id :: x in KeepKey(s, key, id)
  {
    if s != [] {
      KeepKeyMembers(s[1..], key, id);
      assert forall x | x in s :: x == s[0] || x in s[1..];
    }
  }

  lemma {:induction false} KeepKeyAppend<T>(a: seq<T>, b: seq<T>, key: T -> string, id: string)
    ensures KeepKey(a + b, key, id) == KeepKey(a, key, id) + KeepKey(b, key, id)
  {
    if a == [] {
      assert a + b == b;
    } else {
      assert (a + b)[0] == a[0];
      assert (a + b)[1..] == a[1..] + b;
      KeepKeyAppend(a[1..], b, key, id);
    }
  }

  /** The kept elements are a subsequence of the original list. */
  lemma {:induction false} KeepKeyIsSubsequence<T>(s: seq<T>, key: T -> string, id: string)
    ensures IsSubsequence(KeepKey(s, key, id), s)
  {
    if s != [] {
      KeepKeyIsSubsequence(s[1..], key, id);
      if key(s[0]) == id {
        assert ([s[0]] + KeepKey(s[1..], key, id))[1..] == KeepKey(s[1..], key, id);
      }
    }
  }

  /** The distinct keys of `s`, each listed where it first occurs. */
  function FirstKeys<T>(s: seq<T>, key: T -> string): (ks: seq<string>)
  {
    if s == [] then []
    else
      var ks := FirstKeys(s[..|s| - 1], key);
      var k := key(s[|s| - 1]);
      if k in ks then ks else ks + [k]
  }

  /** Every key of the list is listed once, and nothing else is. */
  lemma {:induction false} FirstKeysMembers<T>(s: seq<T>, key: T -> string)
    ensures forall i | 0 <= i < |s| :: key(s[i]) in FirstKeys(s, key)
    ensures forall k | k in FirstKeys(s, key) :: exists i | 0 <= i < |s| :: key(s[i]) == k
    ensures forall i, j | 0 <= i < j < |FirstKeys(s, key)| :: FirstKeys(s, key)[i] != FirstKeys(s, key)[j]
  {
    if s != [] {
      var init := s[..|s| - 1];
      FirstKeysMembers(init, key);
      assert forall i | 0 <= i < |init| :: s[i] == init[i];
    }
  }

  /**
   * The keys appear in order of first appearance: wherever a later key occurs in
   * the list, every earlier key has already occurred before it.
   */
  lemma {:induction false} FirstKeysOrder<T>(s: seq<T>, key: T -> string, a: nat, b: nat, m: nat)
    requires a < b < |FirstKeys(s, key)|
    requires m < |s| && key(s[m]) == FirstKeys(s, key)[b]
    ensures exists l | 0 <= l < m :: key(s[l]) == FirstKeys(s, key)[a]
  {
    var init := s[..|s| - 1];
    var ks := FirstKeys(init, key);
    var k := key(s[|s| - 1]);
    FirstKeysMembers(init, key);
    assert forall i | 0 <= i < |init| :: s[i] == init[i];
    if k in ks {
      assert FirstKeys(s, key) == ks;
      if m == |s| - 1 {
        var m' :| 0 <= m' < |init| && key(init[m']) == k;
        FirstKeysOrder(init, key, a, b, m');
      } else {
        FirstKeysOrder(init, key, a, b, m);
      }
    } else {
      assert FirstKeys(s, key) == ks + [k];
      if b == |ks| {
        assert key(s[m]) !in ks;
        assert m == |s| - 1;
        assert ks[a] in ks;
        var l :| 0 <= l < |init| && key(init[l]) == ks[a];
      } else {
        assert m < |s| - 1;
        FirstKeysOrder(init, key, a, b, m);
      }
    }
  }

  lemma FirstKeysSnoc<T>(s: seq<T>, x: T, key: T -> string)
    ensures var ks := FirstKeys(s, key);
      FirstKeys(s + [x], key) == if key(x) in ks then ks else ks + [key(x)]
  {
    assert (s + [x])[..|s|] == s;
  }

  lemma KeepKeySnoc<T>(s: seq<T>, x: T, key: T -> string, k: string)
    ensures KeepKey(s + [x], key, k) == KeepKey(s, key, k) + (if key(x) == k then [x] else [])
  {
    KeepKeyAppend(s, [x], key, k);
    assert KeepKey([x], key, k) == if key(x) == k then [x] else [];
  }

  lemma KeepKeyOfAbsent<T>(s: seq<T>, key: T -> string, k: string)
    requires k !in FirstKeys(s, key)
    ensures KeepKey(s, key, k) == []
  {
    FirstKeysMembers(s, key);
    KeepKeyMembers(s, key, k);
    if KeepKey(s, key, k) != [] {
      assert KeepKey(s, key, k)[0] in KeepKey(s, key, k);
    }
  }

  /** What the grouping holds after the elements `done`. */
  ghost predicate GroupsOf<T>(done: seq<T>, key: T -> string, order: seq<string>, groups: map<string, seq<T>>)
  {
    && order == FirstKeys(done, key)
    && (forall k :: k in groups <==> k in order)
    && (forall k | k in groups :: groups[k] == KeepKey(done, key, k))
  }

  /** Pushing an element onto the existing group of its key keeps `GroupsOf`. */
  lemma GroupStepExisting<T>(done: seq<T>, x: T, key: T -> string, order: seq<string>, groups: map<string, seq<T>>)
    requires GroupsOf(done, key, order, groups)
    requires key(x) in groups
    ensures GroupsOf(done + [x], key, order, groups[key(x) := groups[key(x)] + [x]])
  {
    FirstKeysSnoc(done, x, key);
    var g := groups[key(x) := groups[key(x)] + [x]];
    forall k | k in g ensures g[k] == KeepKey(done + [x], key, k) {
      KeepKeySnoc(done, x, key, k);
    }
  }

  /** Creating the group of a key not seen before, holding just the element, keeps `GroupsOf`. */
  lemma GroupStepNew<T>(done: seq<T>, x: T, key: T -> string, order: seq<string>, groups: map<string, seq<T>>)
    requires GroupsOf(done, key, order, groups)
    requires key(x) !in groups
    ensures GroupsOf(done + [x], key, order + [key(x)], groups[key(x) := [x]])
  {
    FirstKeysSnoc(done, x, key);
    KeepKeyOfAbsent(done, key, key(x));
    var g := groups[key(x) := [x]];
    forall k | k in g ensures g[k] == KeepKey(done + [x], key, k) {
      KeepKeySnoc(done, x, key, k);
    }
  }

  /**
   * The accumulation `s.reduce((groups, x) => { (groups[key(x)] ??= []).push(x); return groups }, {})`:
   * `groups` maps each key to its elements in list order, and `order` lists the keys as the
   * object's properties are created, by first appearance.
   */
  method GroupBy<T>(s: seq<T>, key: T -> string) returns (order: seq<string>, groups: map<string, seq<T>>)
    ensures order == FirstKeys(s, key)
    ensures forall k :: k in groups <==> k in order
    ensures forall k | k in groups :: groups[k] == KeepKey(s, key, k)
  {
    order, groups := [], map[];
    var i := 0;
    while i < |s|
      invariant 0 <= i <= |s|
      invariant GroupsOf(s[..i], key, order, groups)
    {
      var x := s[i];
      var k := key(x);
      assert s[..i + 1] == s[..i] + [x];
      if k !in groups {
        GroupStepNew(s[..i], x, key, order, groups);
        groups := groups[k := [x]];
        order := order + [k];
      } else {
        GroupStepExisting(s[..i], x, key, order, groups);
        groups := groups[k := groups[k] + [x]];
      }
      i := i + 1;
    }
    assert s[..i] == s;
  }
}
