/**
 * The order in which bobbin lots are listed: ascending by their
 * `dataPrevistaEntrega` string, compared the way the document store compares
 * strings (code point by code point, a proper prefix first).
 */
module DueOrder {
  import opened Records

  /** Lexicographic "less than or equal" on strings. */
  predicate StrLe(a: string, b: string)
    decreases |a|
  {
    |a| == 0 || (|b| > 0 && (a[0] < b[0] || (a[0] == b[0] && StrLe(a[1..], b[1..]))))
  }

  /*
   * StrLe is a total order (reflexive, total, transitive, antisymmetric):
   * the ascending sort on a string field is well defined, and two lots
   * with the same due string are the only ones it may order either way.
   */
  lemma {:induction false} StrLeReflexive(a: string)
    ensures StrLe(a, a)
    decreases |a|
  {
    if |a| > 0 {
      StrLeReflexive(a[1..]);
    }
  }

  lemma {:induction false} StrLeTotal(a: string, b: string)
    ensures StrLe(a, b) || StrLe(b, a)
    decreases |a|
  {
    if |a| > 0 && |b| > 0 && a[0] == b[0] {
      StrLeTotal(a[1..], b[1..]);
    }
  }

  lemma {:induction false} StrLeTransitive(a: string, b: string, c: string)
    requires StrLe(a, b) && StrLe(b, c)
    ensures StrLe(a, c)
    decreases |a|
  {
    if |a| > 0 && a[0] == b[0] && b[0] == c[0] {
      StrLeTransitive(a[1..], b[1..], c[1..]);
    }
  }

  lemma {:induction false} StrLeAntisymmetric(a: string, b: string)
    requires StrLe(a, b) && StrLe(b, a)
    ensures a == b
    decreases |a|
  {
    if |a| > 0 {
      StrLeAntisymmetric(a[1..], b[1..]);
      assert a == [a[0]] + a[1..] && b == [b[0]] + b[1..];
    }
  }

  predicate DueLe(x: Espula, y: Espula) {
    StrLe(x.dataPrevistaEntrega, y.dataPrevistaEntrega)
  }

  predicate SortedByDue(s: seq<Espula>) {
    forall i, j :: 0 <= i < j < |s| ==> DueLe(s[i], s[j])
  }

  predicate DistinctIds(s: seq<Espula>) {
    forall i, j :: 0 <= i < j < |s| ==> s[i].id != s[j].id
  }

  ghost function IdSet(s: seq<Espula>): set<string> {
    set i | 0 <= i < |s| :: s[i].id
  }

  /** A list whose ids are pairwise distinct has as many ids as elements. */
  lemma {:induction false} DistinctIdsCard(s: seq<Espula>)
    requires DistinctIds(s)
    ensures |IdSet(s)| == |s|
  {
    if |s| > 0 {
      var rest := s[1..];
      assert DistinctIds(rest);
      DistinctIdsCard(rest);
      assert IdSet(s) == IdSet(rest) + {s[0].id} by {
        forall x | x in IdSet(s) ensures x in IdSet(rest) + {s[0].id} {
          var i :| 0 <= i < |s| && s[i].id == x;
          if i > 0 { assert rest[i - 1].id == x; }
        }
        forall x | x in IdSet(rest) ensures x in IdSet(s) {
          var i :| 0 <= i < |rest| && rest[i].id == x;
          assert s[i + 1].id == x;
        }
      }
      forall i | 0 <= i < |rest| ensures rest[i].id != s[0].id {
        assert rest[i] == s[i + 1];
      }
    }
  }

  /**
   * Where a lot goes in an already sorted list: after every lot due strictly
   * earlier and before the first lot due no earlier than it.
   */
  function InsertionPoint(s: seq<Espula>, e: Espula): (k: nat)
    requires SortedByDue(s)
    ensures k <= |s|
    ensures forall i :: 0 <= i < k ==> DueLe(s[i], e)
    ensures forall i :: k <= i < |s| ==> DueLe(e, s[i])
    decreases |s|
  {
    if |s| == 0 then 0
    else if DueLe(e, s[0]) then
      assert forall i :: 0 < i < |s| ==> DueLe(e, s[i]) by {
        forall i | 0 < i < |s| ensures DueLe(e, s[i]) {
          StrLeTransitive(e.dataPrevistaEntrega, s[0].dataPrevistaEntrega, s[i].dataPrevistaEntrega);
        }
      }
      0
    else
      StrLeTotal(e.dataPrevistaEntrega, s[0].dataPrevistaEntrega);
      var k' := InsertionPoint(s[1..], e);
      assert forall i :: 1 <= i < k' + 1 ==> DueLe(s[i], e) by {
        forall i | 1 <= i < k' + 1 ensures DueLe(s[i], e) {
          assert s[1..][i - 1] == s[i];
        }
      }
      assert forall i :: k' + 1 <= i < |s| ==> DueLe(e, s[i]) by {
        forall i | k' + 1 <= i < |s| ensures DueLe(e, s[i]) {
          assert s[1..][i - 1] == s[i];
        }
      }
      k' + 1
  }

  /** Inserting a lot at its insertion point keeps a sorted list sorted. */
  lemma InsertKeepsSorted(s: seq<Espula>, e: Espula, k: nat)
    requires SortedByDue(s) && k <= |s|
    requires forall i :: 0 <= i < k ==> DueLe(s[i], e)
    requires forall i :: k <= i < |s| ==> DueLe(e, s[i])
    ensures SortedByDue(s[..k] + [e] + s[k..])
  {
    var r := s[..k] + [e] + s[k..];
    forall i, j | 0 <= i < j < |r| ensures DueLe(r[i], r[j]) {
      if j < k {
        assert r[i] == s[i] && r[j] == s[j];
      } else if j == k {
        assert r[i] == s[i];
      } else if i == k {
        assert r[j] == s[j - 1];
      } else if i < k {
        assert r[i] == s[i] && r[j] == s[j - 1];
        StrLeTransitive(s[i].dataPrevistaEntrega, e.dataPrevistaEntrega, s[j - 1].dataPrevistaEntrega);
      } else {
        assert r[i] == s[i - 1] && r[j] == s[j - 1];
      }
    }
  }

  /** Where each element of a list with one lot inserted at `k` comes from. */
  lemma InsertedAt(s: seq<Espula>, e: Espula, k: nat)
    requires k <= |s|
    ensures |s[..k] + [e] + s[k..]| == |s| + 1
    ensures forall i :: 0 <= i < k ==> (s[..k] + [e] + s[k..])[i] == s[i]
    ensures (s[..k] + [e] + s[k..])[k] == e
    ensures forall i :: k < i <= |s| ==> (s[..k] + [e] + s[k..])[i] == s[i - 1]
  {
  }

  /** Inserting a lot whose id is new keeps the ids distinct and adds exactly that id. */
  lemma InsertKeepsIds(s: seq<Espula>, e: Espula, k: nat)
    requires DistinctIds(s) && k <= |s| && e.id !in IdSet(s)
    ensures DistinctIds(s[..k] + [e] + s[k..])
    ensures IdSet(s[..k] + [e] + s[k..]) == IdSet(s) + {e.id}
    ensures forall i :: 0 <= i < |s[..k] + [e] + s[k..]| ==>
      (s[..k] + [e] + s[k..])[i] == e || (s[..k] + [e] + s[k..])[i] in s
  {
    var r := s[..k] + [e] + s[k..];
    InsertedAt(s, e, k);
    forall i, j | 0 <= i < j < |r| ensures r[i].id != r[j].id {
      if j < k {
        assert r[i] == s[i] && r[j] == s[j];
      } else if j == k {
        assert r[i].id in IdSet(s);
      } else if i == k {
        assert r[j].id in IdSet(s);
      } else if i < k {
        assert r[i] == s[i] && r[j] == s[j - 1];
      } else {
        assert r[i] == s[i - 1] && r[j] == s[j - 1];
      }
    }
    forall x | x in IdSet(r) ensures x in IdSet(s) + {e.id} {
      var i :| 0 <= i < |r| && r[i].id == x;
      if i < k { assert s[i].id == x; } else if i > k { assert s[i - 1].id == x; }
    }
    forall x | x in IdSet(s) + {e.id} ensures x in IdSet(r) {
      if x == e.id {
        assert r[k].id == x;
      } else {
        var i :| 0 <= i < |s| && s[i].id == x;
        if i < k { assert r[i].id == x; } else { assert r[i + 1].id == x; }
      }
    }
    forall i | 0 <= i < |r| ensures r[i] == e || r[i] in s {
      if i < k { assert r[i] == s[i]; } else if i > k { assert r[i] == s[i - 1]; }
    }
  }
}
