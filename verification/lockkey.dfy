/** The Redis key of the seat lock: `seat-lock:<show>:<sorted seat ids joined by commas>`. */
module LockKey {

  /** Lexicographic order on code units, the default order of `sort()`. */
  predicate Leq(a: string, b: string) {
    a == [] || (b != [] && (a[0] < b[0] || (a[0] == b[0] && Leq(a[1..], b[1..]))))
  }

  lemma {:induction false} LeqTotal(a: string, b: string)
    ensures Leq(a, b) || Leq(b, a)
    ensures Leq(a, b) && Leq(b, a) ==> a == b
  {
    if a != [] && b != [] && a[0] == b[0] {
      LeqTotal(a[1..], b[1..]);
      assert a == [a[0]] + a[1..] && b == [b[0]] + b[1..];
    }
  }

  lemma {:induction false} LeqTransitive(a: string, b: string, c: string)
    requires Leq(a, b) && Leq(b, c)
    ensures Leq(a, c)
  {
    if a != [] && a[0] == b[0] == c[0] {
      LeqTransitive(a[1..], b[1..], c[1..]);
    }
  }

  ghost predicate Sorted(s: seq<string>) {
    forall i, j :: 0 <= i < j < |s| ==> Leq(s[i], s[j])
  }

  function Insert(x: string, s: seq<string>): seq<string> {
    if s == [] || Leq(x, s[0]) then [x] + s else [s[0]] + Insert(x, s[1..])
  }

  function Sort(s: seq<string>): seq<string> {
    if s == [] then [] else Insert(s[0], Sort(s[1..]))
  }

  lemma {:induction false} InsertContents(x: string, s: seq<string>)
    ensures multiset(Insert(x, s)) == multiset(s) + multiset{x}
  {
    if s != [] && !Leq(x, s[0]) {
      InsertContents(x, s[1..]);
      assert s == [s[0]] + s[1..];
    }
  }

  lemma {:induction false} InsertSorted(x: string, s: seq<string>)
    requires Sorted(s)
    ensures Sorted(Insert(x, s))
  {
    if s == [] {
    } else if Leq(x, s[0]) {
      forall j | 0 <= j < |s| ensures Leq(x, s[j]) {
        if j > 0 { LeqTransitive(x, s[0], s[j]); }
      }
    } else {
      var rest := Insert(x, s[1..]);
      InsertSorted(x, s[1..]);
      forall j | 0 <= j < |rest| ensures Leq(s[0], rest[j]) {
        InsertContents(x, s[1..]);
        LeqTotal(x, s[0]);
        assert rest[j] in multiset(rest);
      }
    }
  }

  lemma {:induction false} SortSorts(s: seq<string>)
    ensures Sorted(Sort(s)) && multiset(Sort(s)) == multiset(s)
  {
    if s != [] {
      SortSorts(s[1..]);
      InsertSorted(s[0], Sort(s[1..]));
      InsertContents(s[0], Sort(s[1..]));
      assert s == [s[0]] + s[1..];
    }
  }

  lemma HeadIsLeast(a: seq<string>, x: string)
    requires Sorted(a) && x in multiset(a)
    ensures Leq(a[0], x)
  {
    var i :| 0 <= i < |a| && a[i] == x;
    LeqTotal(x, x);
  }

  lemma HeadsEqual(a: seq<string>, b: seq<string>)
    requires Sorted(a) && Sorted(b) && multiset(a) == multiset(b) && a != []
    ensures b != [] && a[0] == b[0]
  {
    assert |multiset(a)| == |a| && |multiset(b)| == |b|;
    HeadIsLeast(a, b[0]);
    HeadIsLeast(b, a[0]);
    LeqTotal(a[0], b[0]);
  }

  /** A multiset of strings has one sorted arrangement. */
  lemma {:induction false} SortedUnique(a: seq<string>, b: seq<string>)
    requires Sorted(a) && Sorted(b) && multiset(a) == multiset(b)
    ensures a == b
  {
    if a == [] {
      assert |multiset(b)| == |b|;
    } else {
      HeadsEqual(a, b);
      TailMultiset(a);
      TailMultiset(b);
      SortedUnique(a[1..], b[1..]);
      assert a == [a[0]] + a[1..] && b == [a[0]] + b[1..];
    }
  }

  lemma TailMultiset(a: seq<string>)
    requires a != []
    ensures multiset(a[1..]) == multiset(a) - multiset{a[0]}
  {
    assert a == [a[0]] + a[1..];
  }

  function Join(s: seq<string>): string {
    if s == [] then "" else if |s| == 1 then s[0] else s[0] + "," + Join(s[1..])
  }

  function Split(t: string): (parts: seq<string>)
    ensures parts != []
  {
    if t == "" then [""]
    else
      var rest := Split(t[1..]);
      if t[0] == ',' then [""] + rest else [[t[0]] + rest[0]] + rest[1..]
  }

  ghost predicate CommaFree(s: seq<string>) {
    forall i :: 0 <= i < |s| ==> ',' !in s[i]
  }

  lemma {:induction false} SplitHead(head: string, tail: string)
    requires ',' !in head
    ensures Split(head + "," + tail) == [head] + Split(tail)
    ensures Split(head) == [head]
  {
    var t := head + "," + tail;
    if head == "" {
      assert t[1..] == tail;
    } else {
      assert t[1..] == head[1..] + "," + tail && t[0] == head[0] && head[0] in head;
      assert head == [head[0]] + head[1..];
      SplitHead(head[1..], tail);
    }
  }

  lemma {:induction false} SplitJoin(s: seq<string>)
    requires s != [] && CommaFree(s)
    ensures Split(Join(s)) == s
  {
    if |s| == 1 {
      SplitHead(s[0], "");
    } else {
      SplitJoin(s[1..]);
      SplitHead(s[0], Join(s[1..]));
    }
  }

  function Key(showId: string, seatIds: seq<string>): string {
    "seat-lock:" + showId + ":" + Join(Sort(seatIds))
  }

  lemma SortCommaFree(s: seq<string>)
    requires s != [] && CommaFree(s)
    ensures Sort(s) != [] && CommaFree(Sort(s))
  {
    SortSorts(s);
    assert |multiset(Sort(s))| == |Sort(s)| && |multiset(s)| == |s|;
    forall i | 0 <= i < |Sort(s)| ensures ',' !in Sort(s)[i] {
      assert Sort(s)[i] in multiset(s);
    }
  }

  /** Two non-empty requests on one show share a lock exactly when their seat lists are
      permutations of each other. */
  lemma KeyCanonical(showId: string, a: seq<string>, b: seq<string>)
    requires a != [] && b != [] && CommaFree(a) && CommaFree(b)
    ensures Key(showId, a) == Key(showId, b) <==> multiset(a) == multiset(b)
  {
    SortSorts(a);
    SortSorts(b);
    if multiset(a) == multiset(b) {
      SortedUnique(Sort(a), Sort(b));
    }
    if Key(showId, a) == Key(showId, b) {
      var p := "seat-lock:" + showId + ":";
      assert Join(Sort(a)) == Key(showId, a)[|p|..] && Join(Sort(b)) == Key(showId, b)[|p|..];
      SortCommaFree(a);
      SortCommaFree(b);
      SplitJoin(Sort(a));
      SplitJoin(Sort(b));
    }
  }

  /** With commas in the ids two different requests can share a lock. */
  lemma CommasClash(showId: string)
    ensures Key(showId, ["A1,B1"]) == Key(showId, ["A1", "B1"])
    ensures multiset(["A1,B1"]) != multiset(["A1", "B1"])
  {
    var b := ["A1", "B1"];
    assert b[1..] == ["B1"] && ["B1"][1..] == [];
    assert Leq("A1", "B1");
    assert Sort(["B1"]) == ["B1"];
    assert Sort(b) == b;
    assert Join(b) == "A1" + "," + "B1" == "A1,B1";
    assert ["A1,B1"][1..] == [];
    assert multiset(b)["A1"] == 1;
  }

  ghost predicate ColonFree(s: string) { ':' !in s }

  /** With colon-free show ids a key names its show: the text up to the second colon. */
  lemma {:induction false} HeadsApart(a: string, x: string, b: string, y: string)
    requires ColonFree(a) && ColonFree(b) && a + ":" + x == b + ":" + y
    ensures a == b && x == y
  {
    var s, t := a + ":" + x, b + ":" + y;
    if a == "" || b == "" {
      assert s[0] == t[0];
      assert x == s[|a| + 1..] && y == t[|b| + 1..];
    } else {
      assert a == [a[0]] + a[1..] && b == [b[0]] + b[1..];
      assert s[1..] == a[1..] + ":" + x && t[1..] == b[1..] + ":" + y;
      assert s[0] == a[0] && t[0] == b[0];
      HeadsApart(a[1..], x, b[1..], y);
    }
  }

  /** Two non-empty requests share a lock exactly when they are for one show and their seat lists are
      permutations of each other: the locks of two shows are apart. */
  lemma KeyExactly(show: string, a: seq<string>, other: string, b: seq<string>)
    requires ColonFree(show) && ColonFree(other)
    requires a != [] && b != [] && CommaFree(a) && CommaFree(b)
    ensures Key(show, a) == Key(other, b) <==> show == other && multiset(a) == multiset(b)
  {
    if Key(show, a) == Key(other, b) {
      var p := "seat-lock:";
      assert Key(show, a)[|p|..] == show + ":" + Join(Sort(a));
      assert Key(other, b)[|p|..] == other + ":" + Join(Sort(b));
      HeadsApart(show, Join(Sort(a)), other, Join(Sort(b)));
    }
    if show == other { KeyCanonical(show, a, b); }
  }

  /** With colons in the ids requests for two different shows can share a lock. */
  lemma ColonsClash()
    ensures Key("S", ["A:B"]) == Key("S:A", ["B"])
  {
    assert ["A:B"][1..] == [] && ["B"][1..] == [];
    assert Sort(["A:B"]) == ["A:B"] && Sort(["B"]) == ["B"];
    assert "seat-lock:" + "S" + ":" + "A:B" == "seat-lock:" + "S:A" + ":" + "B";
  }
}
