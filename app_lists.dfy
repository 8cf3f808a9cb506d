/**
 * The list expressions of the UI component: the status-filter projection,
 * the `filter` that drops a deleted entry, the `find` that looks an entry up
 * and the `map` that swaps in the server's copy.
 */
module AppLists {
  import opened Wrappers
  import opened JobModel

  /** The filter drop-down: every status, or exactly one. */
  datatype StatusFilter = All | Only(status: Status)

  /** `Array.prototype.filter`: the entries satisfying `p`, in order. */
  function Keep<T>(s: seq<T>, p: T -> bool): (r: seq<T>)
    ensures |r| <= |s|
    ensures forall x :: x in r ==> x in s && p(x)
  {
    if s == [] then []
    else (if p(s[0]) then [s[0]] else []) + Keep(s[1..], p)
  }

  /** `r` is `s` with some entries left out, the rest in their order. */
  predicate IsSubsequence<T(==)>(r: seq<T>, s: seq<T>)
    decreases |s|
  {
    if r == [] then true
    else if s == [] then false
    else (r[0] == s[0] && IsSubsequence(r[1..], s[1..])) || IsSubsequence(r, s[1..])
  }

  /** Filtering keeps every entry that satisfies `p`, as often as it occurs, and no other. */
  lemma {:induction false} KeepCounts<T>(s: seq<T>, p: T -> bool)
    ensures forall x :: multiset(Keep(s, p))[x] == if p(x) then multiset(s)[x] else 0
  {
    if s != [] {
      KeepCounts(s[1..], p);
      assert s == [s[0]] + s[1..];
    }
  }

  /** Filtering preserves the relative order of what it keeps. */
  lemma {:induction false} KeepIsSubsequence<T>(s: seq<T>, p: T -> bool)
    ensures IsSubsequence(Keep(s, p), s)
  {
    if s != [] {
      KeepIsSubsequence(s[1..], p);
      var rest := Keep(s[1..], p);
      if p(s[0]) {
        assert Keep(s, p) == [s[0]] + rest;
        assert Keep(s, p)[1..] == rest;
      } else {
        assert Keep(s, p) == rest;
      }
    }
  }

  /** A filter that every entry passes returns the list itself. */
  lemma {:induction false} KeepEverything<T>(s: seq<T>, p: T -> bool)
    ensures (forall x :: x in s ==> p(x)) ==> Keep(s, p) == s
  {
    if s != [] && forall x :: x in s ==> p(x) {
      KeepEverything(s[1..], p);
      assert s == [s[0]] + s[1..];
    }
  }

  predicate Shown(j: Job, f: StatusFilter) {
    f.All? || j.status == StatusName(f.status)
  }

  /** `filteredApplications`. */
  function Visible(apps: seq<Job>, f: StatusFilter): (r: seq<Job>)
    ensures forall x :: x in r ==> x in apps && Shown(x, f)
    ensures f.All? ==> r == apps
  {
    var shown := (j: Job) => Shown(j, f);
    KeepEverything(apps, shown);
    Keep(apps, shown)
  }

  /**
   * With the filter at "All" the view is the list itself, in the same order.
   * A corollary of `Visible`'s contract, stated beside `VisibleOnly`.
   */
  lemma VisibleAll(apps: seq<Job>)
    ensures Visible(apps, All) == apps
  {
  }

  /** With one status chosen the view is exactly the entries of that status, in order. */
  lemma VisibleOnly(apps: seq<Job>, s: Status)
    ensures forall x :: x in Visible(apps, Only(s)) ==> x.status == StatusName(s)
    ensures forall x :: multiset(Visible(apps, Only(s)))[x] ==
                        (if x.status == StatusName(s) then multiset(apps)[x] else 0)
    ensures IsSubsequence(Visible(apps, Only(s)), apps)
  {
    KeepCounts(apps, (j: Job) => Shown(j, Only(s)));
    KeepIsSubsequence(apps, (j: Job) => Shown(j, Only(s)));
  }

  /** `applications.filter(app => app._id !== id)`. */
  function WithoutId(apps: seq<Job>, id: JobId): (r: seq<Job>)
    ensures forall x :: x in r ==> x in apps && x.id != id
    ensures (forall x :: x in apps ==> x.id != id) ==> r == apps
  {
    var kept := (j: Job) => j.id != id;
    KeepEverything(apps, kept);
    Keep(apps, kept)
  }

  /** Dropping an id removes every entry with it and keeps all others, in order. */
  lemma WithoutIdSpec(apps: seq<Job>, id: JobId)
    ensures forall x :: x in WithoutId(apps, id) ==> x.id != id
    ensures forall x :: multiset(WithoutId(apps, id))[x] == if x.id == id then 0 else multiset(apps)[x]
    ensures IsSubsequence(WithoutId(apps, id), apps)
  {
    KeepCounts(apps, (j: Job) => j.id != id);
    KeepIsSubsequence(apps, (j: Job) => j.id != id);
  }

  /** `applications.find(app => app._id === id)`: the first entry with that id. */
  function FindById(apps: seq<Job>, id: JobId): (r: Option<Job>)
    ensures r.None? <==> forall i :: 0 <= i < |apps| ==> apps[i].id != id
    ensures r.Some? ==> exists i :: 0 <= i < |apps| && apps[i] == r.value
                                    && r.value.id == id
                                    && forall k :: 0 <= k < i ==> apps[k].id != id
  {
    if apps == [] then None
    else if apps[0].id == id then Some(apps[0])
    else
      var r := FindById(apps[1..], id);
      assert forall i :: 1 <= i < |apps| ==> apps[i] == apps[1..][i - 1];
      r
  }

  /** `applications.map(app => app._id === id ? record : app)`. */
  function ReplaceById(apps: seq<Job>, id: JobId, record: Job): (r: seq<Job>)
    ensures |r| == |apps|
    ensures forall i :: 0 <= i < |apps| ==> r[i] == if apps[i].id == id then record else apps[i]
  {
    if apps == [] then []
    else [if apps[0].id == id then record else apps[0]] + ReplaceById(apps[1..], id, record)
  }

  /**
   * The same `map` as the component writes it, where the server's reply may
   * be `null` (the update found no document): entries become optional.
   */
  function ReplaceWithReply(apps: seq<Job>, id: JobId, reply: Option<Job>): (r: seq<Option<Job>>)
    ensures |r| == |apps|
    ensures forall i :: 0 <= i < |apps| ==> r[i] == if apps[i].id == id then reply else Some(apps[i])
    ensures reply.Some? ==> forall i :: 0 <= i < |apps| ==> r[i] == Some(ReplaceById(apps, id, reply.value)[i])
  {
    seq(|apps|, i requires 0 <= i < |apps| => if apps[i].id == id then reply else Some(apps[i]))
  }

  /** A `null` reply puts a `null` entry into the list in place of the record. */
  lemma NullReplyLeavesHole(apps: seq<Job>, id: JobId)
    requires exists i :: 0 <= i < |apps| && apps[i].id == id
    ensures None in ReplaceWithReply(apps, id, None)
  {
  }
}
