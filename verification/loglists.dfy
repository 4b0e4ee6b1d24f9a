/** Operations on lists of log records shared by the API and the admin
    pages: order-preserving selection, ordering newest first, and taking the
    newest `n`. */
module LogLists {
  import opened Models

  /** The elements satisfying `p`, in their original order
      (`Array.prototype.filter`, or a store query without sorting). */
  function Keep<T(==,!new)>(logs: seq<T>, p: T -> bool): (r: seq<T>)
    ensures |r| <= |logs|
    ensures forall i :: 0 <= i < |r| ==> p(r[i])
    ensures forall x :: x in r <==> x in logs && p(x)
    ensures multiset(r) <= multiset(logs)
    decreases |logs|
  {
    if |logs| == 0 then []
    else
      assert logs == [logs[0]] + logs[1..];
      if p(logs[0]) then [logs[0]] + Keep(logs[1..], p) else Keep(logs[1..], p)
  }

  /** Selecting by `p` and by its negation splits the list: together the two
      selections hold every record exactly as often as the list does; `notP`
      is the negation of `p`. */
  lemma {:induction false} KeepSplit<T(!new)>(logs: seq<T>, p: T -> bool, notP: T -> bool)
    requires forall x :: notP(x) == !p(x)
    ensures multiset(Keep(logs, p)) + multiset(Keep(logs, notP)) == multiset(logs)
    ensures |Keep(logs, p)| + |Keep(logs, notP)| == |logs|
    decreases |logs|
  {
    if |logs| > 0 {
      KeepSplit(logs[1..], p, notP);
      assert logs == [logs[0]] + logs[1..];
    }
  }

  /** Selecting everything keeps the list as it is. */
  lemma {:induction false} KeepAll<T(!new)>(logs: seq<T>, p: T -> bool)
    requires forall i :: 0 <= i < |logs| ==> p(logs[i])
    ensures Keep(logs, p) == logs
    decreases |logs|
  {
    if |logs| > 0 {
      KeepAll(logs[1..], p);
    }
  }

  /** Selecting by a stronger predicate selects fewer records. */
  lemma {:induction false} KeepNarrows<T(!new)>(logs: seq<T>, p: T -> bool, q: T -> bool)
    requires forall x :: p(x) ==> q(x)
    ensures multiset(Keep(logs, p)) <= multiset(Keep(logs, q))
    decreases |logs|
  {
    if |logs| > 0 {
      KeepNarrows(logs[1..], p, q);
    }
  }

  /** Selecting by `p` from a selection by a weaker `q` is selecting by
      `p` directly. */
  lemma {:induction false} KeepKeep<T(!new)>(logs: seq<T>, p: T -> bool, q: T -> bool)
    requires forall x :: p(x) ==> q(x)
    ensures Keep(Keep(logs, q), p) == Keep(logs, p)
    decreases |logs|
  {
    if |logs| > 0 {
      KeepKeep(logs[1..], p, q);
    }
  }

  /** Selecting from a list with one more element at the end. */
  lemma {:induction false} KeepAppend<T(!new)>(s: seq<T>, x: T, p: T -> bool)
    ensures Keep(s + [x], p) == Keep(s, p) + (if p(x) then [x] else [])
    decreases |s|
  {
    var tail := if p(x) then [x] else [];
    if |s| > 0 {
      var t := s + [x];
      assert t[0] == s[0] && t[1..] == s[1..] + [x];
      KeepAppend(s[1..], x, p);
      if p(s[0]) {
        calc {
          Keep(t, p);
          [s[0]] + Keep(s[1..] + [x], p);
          [s[0]] + (Keep(s[1..], p) + tail);
          { assert [s[0]] + (Keep(s[1..], p) + tail) == ([s[0]] + Keep(s[1..], p)) + tail; }
          Keep(s, p) + tail;
        }
      } else {
        calc {
          Keep(t, p);
          Keep(s[1..] + [x], p);
          Keep(s, p) + tail;
        }
      }
    } else {
      assert s + [x] == [x];
      assert Keep([x], p) == tail by {
        assert [x][1..] == [];
      }
    }
  }

  /** Newest first: timestamps never increase along the list. */
  predicate NewestFirst(s: seq<LogRecord>) {
    forall i, j :: 0 <= i < j < |s| ==> s[i].timestamp >= s[j].timestamp
  }

  /** `x` placed before the first record older than it. */
  function Insert(x: LogRecord, s: seq<LogRecord>): (r: seq<LogRecord>)
    requires NewestFirst(s)
    ensures NewestFirst(r)
    ensures multiset(r) == multiset(s) + multiset{x}
    ensures |r| == |s| + 1
    decreases |s|
  {
    if |s| == 0 then [x]
    else if x.timestamp >= s[0].timestamp then [x] + s
    else
      var rest := Insert(x, s[1..]);
      assert s == [s[0]] + s[1..];
      assert Above(s[0], rest) by {
        forall k | 0 <= k < |rest|
          ensures s[0].timestamp >= rest[k].timestamp
        {
          assert rest[k] in multiset(rest);
          if rest[k] != x {
            assert rest[k] in multiset(s[1..]);
            var j :| 0 <= j < |s[1..]| && s[1..][j] == rest[k];
            assert s[j + 1] == rest[k];
          }
        }
      }
      ConsNewestFirst(s[0], rest);
      [s[0]] + rest
  }

  /** No record of `s` is newer than `x`. */
  predicate Above(x: LogRecord, s: seq<LogRecord>) {
    forall k :: 0 <= k < |s| ==> x.timestamp >= s[k].timestamp
  }

  lemma ConsNewestFirst(x: LogRecord, s: seq<LogRecord>)
    requires NewestFirst(s) && Above(x, s)
    ensures NewestFirst([x] + s)
  {
    var r := [x] + s;
    forall i, j | 0 <= i < j < |r|
      ensures r[i].timestamp >= r[j].timestamp
    {
      if i > 0 {
        assert r[i] == s[i - 1] && r[j] == s[j - 1];
      }
    }
  }

  /** `.sort({ timestamp: -1 })`: the same records, newest first. Records
      with equal timestamps keep no promised order. */
  function SortNewestFirst(s: seq<LogRecord>): (r: seq<LogRecord>)
    ensures NewestFirst(r)
    ensures multiset(r) == multiset(s)
    ensures |r| == |s|
    decreases |s|
  {
    if |s| == 0 then []
    else
      assert s == [s[0]] + s[1..];
      Insert(s[0], SortNewestFirst(s[1..]))
  }

  /** `.limit(n)` on a sorted result: the first `n` records. */
  function Newest(s: seq<LogRecord>, n: nat): (r: seq<LogRecord>)
    ensures |r| == if |s| < n then |s| else n
    ensures r == s[..|r|]
  {
    if |s| <= n then s else s[..n]
  }

  /** Cutting a newest-first list keeps the newest records: everything cut
      off is no newer than anything kept, and kept plus cut is the list. */
  lemma NewestCut(s: seq<LogRecord>, n: nat)
    requires NewestFirst(s)
    ensures NewestFirst(Newest(s, n))
    ensures multiset(Newest(s, n)) + multiset(s[|Newest(s, n)|..]) == multiset(s)
    ensures forall x, y :: x in Newest(s, n) && y in s[|Newest(s, n)|..] ==> y.timestamp <= x.timestamp
  {
    var r := Newest(s, n);
    var k := |r|;
    assert s == s[..k] + s[k..];
    forall x, y | x in r && y in s[k..]
      ensures y.timestamp <= x.timestamp
    {
      var i :| 0 <= i < k && r[i] == x;
      var j :| 0 <= j < |s| - k && s[k..][j] == y;
      assert s[i] == x && s[k + j] == y;
    }
  }
}
