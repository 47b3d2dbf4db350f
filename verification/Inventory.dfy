/** Backup archives as `list_backups` reports them: the three category
    subdirectories, how paths are joined, and the newest-first sort. */
module Inventory {
  import opened Text
  import opened Paths

  /** The retention categories, each a subdirectory of the storage path. */
  datatype Kind = Daily | Weekly | Monthly

  /** The order in which `list_backups` visits the categories. */
  const Kinds: seq<Kind> := [Daily, Weekly, Monthly]

  function KindName(k: Kind): string
  {
    match k
    case Daily => "daily"
    case Weekly => "weekly"
    case Monthly => "monthly"
  }

  /** Position of a category in the visiting order. */
  function KindIndex(k: Kind): (i: nat)
    ensures i < |Kinds| && Kinds[i] == k
  {
    match k
    case Daily => 0
    case Weekly => 1
    case Monthly => 2
  }

  const ArchiveSuffix := ".tar.gz"

  /** One entry of the listing: `created` is the file's modification time, in whole seconds. */
  datatype Backup = Backup(filename: string, kind: Kind, size: nat, created: int, path: string)

  /** Ordered by `created`, newest first. */
  predicate NewestFirst(s: seq<Backup>)
  {
    forall i, j :: 0 <= i < j < |s| ==> s[i].created >= s[j].created
  }

  /** No entry occurs twice. */
  predicate Distinct(s: seq<Backup>)
  {
    forall i, j :: 0 <= i < j < |s| ==> s[i] != s[j]
  }

  /** The daily entries come before the weekly ones, and those before the monthly ones. */
  predicate GroupedByKind(s: seq<Backup>)
  {
    forall i, j :: 0 <= i < j < |s| ==> KindIndex(s[i].kind) <= KindIndex(s[j].kind)
  }

  /** Appending a new record of the latest category keeps the records distinct and grouped. */
  lemma AppendKeepsGrouping(s: seq<Backup>, b: Backup, i: nat)
    requires Distinct(s) && GroupedByKind(s) && b !in s
    requires forall j :: 0 <= j < |s| ==> KindIndex(s[j].kind) <= i
    requires KindIndex(b.kind) == i
    ensures Distinct(s + [b]) && GroupedByKind(s + [b])
    ensures forall j :: 0 <= j < |s + [b]| ==> KindIndex((s + [b])[j].kind) <= i
  {
    forall j, k | 0 <= j < k < |s + [b]| ensures (s + [b])[j] != (s + [b])[k] {
      if k == |s| {
        assert (s + [b])[j] == s[j];
      }
    }
  }

  /** The entries created at time `t`, in their order in `s`. */
  function CreatedAt(s: seq<Backup>, t: int): seq<Backup>
  {
    if s == [] then []
    else (if s[0].created == t then [s[0]] else []) + CreatedAt(s[1..], t)
  }

  /** Picking out the entries of one creation time keeps them grouped by category. */
  lemma {:induction false} CreatedAtKeepsGrouping(s: seq<Backup>, t: int)
    requires GroupedByKind(s)
    ensures GroupedByKind(CreatedAt(s, t))
  {
    if s != [] {
      assert GroupedByKind(s[1..]);
      CreatedAtKeepsGrouping(s[1..], t);
      CreatedAtIsSubset(s[1..], t);
      var rest := CreatedAt(s[1..], t);
      forall j | 0 <= j < |rest| ensures KindIndex(s[0].kind) <= KindIndex(rest[j].kind) {
        assert rest[j] in s[1..];
        var k :| 0 <= k < |s[1..]| && s[1..][k] == rest[j];
        assert s[k + 1] == rest[j];
      }
    }
  }

  /** Every entry created at `t` is an entry of `s`. */
  lemma {:induction false} CreatedAtIsSubset(s: seq<Backup>, t: int)
    ensures forall b :: b in CreatedAt(s, t) ==> b in s && b.created == t
  {
    if s != [] {
      CreatedAtIsSubset(s[1..], t);
    }
  }

  /** Puts `x` into a newest-first list after every entry at least as new as it. */
  function Insert(r: seq<Backup>, x: Backup): seq<Backup>
  {
    if r == [] then [x]
    else if r[0].created >= x.created then [r[0]] + Insert(r[1..], x)
    else [x] + r
  }

  /** `backups.sort(key=lambda x: x['created'], reverse=True)`: a stable sort on
      `created` alone, newest first; entries with equal times keep their order. */
  function SortNewestFirst(s: seq<Backup>): seq<Backup>
  {
    if s == [] then [] else Insert(SortNewestFirst(s[..|s| - 1]), s[|s| - 1])
  }

  lemma {:induction false} InsertMultiset(r: seq<Backup>, x: Backup)
    ensures multiset(Insert(r, x)) == multiset(r) + multiset{x}
  {
    if r != [] && r[0].created >= x.created {
      InsertMultiset(r[1..], x);
      assert r == [r[0]] + r[1..];
    }
  }

  lemma {:induction false} InsertNewestFirst(r: seq<Backup>, x: Backup)
    requires NewestFirst(r)
    ensures NewestFirst(Insert(r, x))
  {
    if r != [] && r[0].created >= x.created {
      InsertNewestFirst(r[1..], x);
      InsertMultiset(r[1..], x);
      var rest := Insert(r[1..], x);
      forall j | 0 <= j < |rest| ensures r[0].created >= rest[j].created {
        assert rest[j] in multiset(rest);
        assert rest[j] in multiset(r[1..]) || rest[j] == x;
        if rest[j] != x {
          var k :| 0 <= k < |r[1..]| && r[1..][k] == rest[j];
          assert r[k + 1] == rest[j];
        }
      }
    }
  }

  lemma {:induction false} CreatedAtAppend(a: seq<Backup>, b: seq<Backup>, t: int)
    ensures CreatedAt(a + b, t) == CreatedAt(a, t) + CreatedAt(b, t)
  {
    if a != [] {
      CreatedAtAppend(a[1..], b, t);
      assert (a + b)[1..] == a[1..] + b;
    } else {
      assert a + b == b;
    }
  }

  /** Nothing in a newest-first list whose head is older than `t` was created at `t`. */
  lemma {:induction false} CreatedAtOlder(r: seq<Backup>, t: int)
    requires NewestFirst(r) && (r == [] || r[0].created < t)
    ensures CreatedAt(r, t) == []
  {
    if r != [] {
      assert NewestFirst(r[1..]);
      CreatedAtOlder(r[1..], t);
    }
  }

  lemma {:induction false} InsertStable(r: seq<Backup>, x: Backup, t: int)
    requires NewestFirst(r)
    ensures CreatedAt(Insert(r, x), t) == CreatedAt(r, t) + (if x.created == t then [x] else [])
  {
    if r == [] {
    } else if r[0].created >= x.created {
      assert NewestFirst(r[1..]);
      InsertStable(r[1..], x, t);
      CreatedAtAppend([r[0]], Insert(r[1..], x), t);
    } else {
      CreatedAtAppend([x], r, t);
      if x.created == t {
        CreatedAtOlder(r, t);
      }
    }
  }

  lemma {:induction false} InsertKeepsDistinct(r: seq<Backup>, x: Backup)
    requires Distinct(r) && x !in r
    ensures Distinct(Insert(r, x))
  {
    if r != [] && r[0].created >= x.created {
      assert Distinct(r[1..]);
      InsertKeepsDistinct(r[1..], x);
      InsertMultiset(r[1..], x);
      var rest := Insert(r[1..], x);
      assert r[0] != x && r[0] !in r[1..];
      assert r[0] !in multiset(rest);
    }
  }

  /** The sort is a permutation of its input. */
  lemma {:induction false} SortPermutes(s: seq<Backup>)
    ensures multiset(SortNewestFirst(s)) == multiset(s)
  {
    if s != [] {
      var init, last := s[..|s| - 1], s[|s| - 1];
      assert s == init + [last];
      SortPermutes(init);
      InsertMultiset(SortNewestFirst(init), last);
    }
  }

  /** The sort neither drops nor invents an entry. */
  lemma SortKeepsMembers(s: seq<Backup>)
    ensures forall b :: b in SortNewestFirst(s) <==> b in s
  {
    SortPermutes(s);
    forall b ensures b in SortNewestFirst(s) <==> b in s {
      assert b in SortNewestFirst(s) <==> b in multiset(SortNewestFirst(s));
    }
  }

  /** The sort puts the newest entry first. */
  lemma {:induction false} SortOrders(s: seq<Backup>)
    ensures NewestFirst(SortNewestFirst(s))
  {
    if s != [] {
      SortOrders(s[..|s| - 1]);
      InsertNewestFirst(SortNewestFirst(s[..|s| - 1]), s[|s| - 1]);
    }
  }

  /** The sort is stable: the entries of any one creation time come out in the
      order they went in; ties are not broken by name or by anything else. */
  lemma {:induction false} SortIsStable(s: seq<Backup>, t: int)
    ensures CreatedAt(SortNewestFirst(s), t) == CreatedAt(s, t)
  {
    if s != [] {
      var init, last := s[..|s| - 1], s[|s| - 1];
      assert s == init + [last];
      SortIsStable(init, t);
      SortOrders(init);
      InsertStable(SortNewestFirst(init), last, t);
      CreatedAtAppend(init, [last], t);
    }
  }

  /** A list without repeated entries stays so when sorted. */
  lemma {:induction false} SortKeepsDistinct(s: seq<Backup>)
    requires Distinct(s)
    ensures Distinct(SortNewestFirst(s))
  {
    if s != [] {
      var init, last := s[..|s| - 1], s[|s| - 1];
      assert Distinct(init);
      SortKeepsDistinct(init);
      SortPermutes(init);
      assert last !in init;
      assert last !in multiset(SortNewestFirst(init));
      InsertKeepsDistinct(SortNewestFirst(init), last);
    }
  }
}
