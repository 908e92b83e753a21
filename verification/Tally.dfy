/**
 * An insertion-ordered dictionary from member ids to amounts, as the services build them with
 * `totals[m] = totals.get(m, 0) + amount`.
 */
module Tally {
  import opened Sums
  import opened Domain

  datatype Credit = Credit(member: nat, amount: int)

  function Get(t: seq<Credit>, m: nat): int {
    if t == [] then 0 else if t[0].member == m then t[0].amount else Get(t[1..], m)
  }

  predicate Has(t: seq<Credit>, m: nat) {
    exists i :: 0 <= i < |t| && t[i].member == m
  }

  ghost predicate DistinctMembers(t: seq<Credit>) {
    forall i, j :: 0 <= i < j < |t| ==> t[i].member != t[j].member
  }

  function AmountOf(): Credit -> int { (c: Credit) => c.amount }

  function Total(t: seq<Credit>): int { Sum(AmountOf(), t) }

  function Add(t: seq<Credit>, m: nat, amount: int): seq<Credit> {
    if t == [] then [Credit(m, amount)]
    else if t[0].member == m then [Credit(m, t[0].amount + amount)] + t[1..]
    else [t[0]] + Add(t[1..], m, amount)
  }

  /** The dictionary after crediting f(row) to the member of each row, first row first. */
  function Accrue(f: Stake -> int, rows: seq<Stake>): seq<Credit> {
    if rows == [] then []
    else
      var last := rows[|rows| - 1];
      Add(Accrue(f, rows[..|rows| - 1]), last.member, f(last))
  }

  /** What f assigns to the rows of one member. */
  function Only(f: Stake -> int, m: nat): Stake -> int {
    (s: Stake) => if s.member == m then f(s) else 0
  }

  predicate Appears(rows: seq<Stake>, m: nat) {
    exists i :: 0 <= i < |rows| && rows[i].member == m
  }

  lemma {:induction false} AddMeaning(t: seq<Credit>, m: nat, amount: int)
    requires DistinctMembers(t)
    ensures DistinctMembers(Add(t, m, amount))
    ensures forall q: nat :: Get(Add(t, m, amount), q) == Get(t, q) + if q == m then amount else 0
    ensures forall q: nat :: Has(Add(t, m, amount), q) <==> Has(t, q) || q == m
    ensures Total(Add(t, m, amount)) == Total(t) + amount
  {
    var u := Add(t, m, amount);
    SumCons(AmountOf(), u);
    if t == [] {
      assert u[0].member == m;
    } else {
      SumCons(AmountOf(), t);
      HasCons(t);
      HasCons(u);
      if t[0].member == m {
        GetAbsent(t[1..], m);
        assert u[1..] == t[1..];
      } else {
        AddMeaning(t[1..], m, amount);
        assert u[1..] == Add(t[1..], m, amount);
        assert !Has(u[1..], t[0].member);
      }
    }
  }

  lemma {:induction false} HasCons(t: seq<Credit>)
    requires t != []
    ensures forall q: nat :: Has(t, q) <==> t[0].member == q || Has(t[1..], q)
  {
    forall q: nat ensures Has(t, q) <==> t[0].member == q || Has(t[1..], q) {
      if Has(t, q) && t[0].member != q {
        var i :| 0 <= i < |t| && t[i].member == q;
        assert t[1..][i - 1].member == q;
      }
      if Has(t[1..], q) {
        var i :| 0 <= i < |t[1..]| && t[1..][i].member == q;
        assert t[i + 1].member == q;
      }
    }
  }

  lemma {:induction false} GetAbsent(t: seq<Credit>, m: nat)
    requires !Has(t, m)
    ensures Get(t, m) == 0
  {
    if t != [] {
      HasCons(t);
      GetAbsent(t[1..], m);
    }
  }

  lemma {:induction false} AddAbsent(t: seq<Credit>, m: nat, amount: int)
    requires forall c :: c in t ==> c.member != m
    ensures Add(t, m, amount) == t + [Credit(m, amount)]
  {
    if t != [] {
      AddAbsent(t[1..], m, amount);
    }
  }

  /** Reading a distinct dictionary by key or by position is the same. */
  lemma {:induction false} GetAt(t: seq<Credit>, i: nat)
    requires DistinctMembers(t) && i < |t|
    ensures Get(t, t[i].member) == t[i].amount
  {
    if i > 0 {
      GetAt(t[1..], i - 1);
    }
  }

  lemma {:induction false} AccrueMeaning(f: Stake -> int, rows: seq<Stake>)
    ensures DistinctMembers(Accrue(f, rows))
    ensures forall m: nat :: Get(Accrue(f, rows), m) == Sum(Only(f, m), rows)
    ensures forall m: nat :: Has(Accrue(f, rows), m) <==> Appears(rows, m)
    ensures Total(Accrue(f, rows)) == Sum(f, rows)
  {
    if rows != [] {
      var n := |rows| - 1;
      AccrueMeaning(f, rows[..n]);
      AddMeaning(Accrue(f, rows[..n]), rows[n].member, f(rows[n]));
      forall m: nat ensures Appears(rows, m) <==> Appears(rows[..n], m) || rows[n].member == m {
        if Appears(rows[..n], m) {
          var i :| 0 <= i < n && rows[..n][i].member == m;
          assert rows[i].member == m;
        }
        if Appears(rows, m) && rows[n].member != m {
          var i :| 0 <= i < |rows| && rows[i].member == m;
          assert rows[..n][i].member == m;
        }
      }
    }
  }

  /** Every entry of an accrued dictionary is at least as large as a common lower bound of zero. */
  lemma {:induction false} AccrueNonNegative(f: Stake -> int, rows: seq<Stake>)
    requires forall s :: s in rows ==> f(s) >= 0
    ensures forall m: nat :: Get(Accrue(f, rows), m) >= 0
  {
    AccrueMeaning(f, rows);
    forall m: nat ensures Get(Accrue(f, rows), m) >= 0 {
      SumNonNegative(Only(f, m), rows);
    }
  }
}
