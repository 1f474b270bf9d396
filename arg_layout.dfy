// The shape shared by every `write_redis_args` of the FT.CREATE builder: a fixed list of
// keyword slots, each either absent or written as its keyword followed by its values.
// `Emit` is that serialisation; `Parse` reads it back, and `ParseEmit` proves that the
// keyword order of a layout makes the token stream unambiguous.
module ArgLayout {
  import opened Wrappers
  import opened RedisArgs

  /** What follows a keyword: a fixed number of values, or a decimal count and that many items. */
  datatype Arity = Fixed(n: nat) | Counted

  datatype Slot = Slot(keyword: string, arity: Arity)

  /** One optional clause: left out, or present with its values. */
  datatype Clause = Absent | Present(values: seq<string>)

  /** A clause that its slot can carry (a counted clause is written only when non-empty). */
  predicate Fits(slot: Slot, clause: Clause)
  {
    match clause
    case Absent => true
    case Present(vs) =>
      match slot.arity
      case Fixed(n) => |vs| == n
      case Counted => |vs| > 0
  }

  predicate FitsAll(layout: seq<Slot>, clauses: seq<Clause>)
  {
    |layout| == |clauses| && forall i :: 0 <= i < |layout| ==> Fits(layout[i], clauses[i])
  }

  predicate DistinctKeywords(layout: seq<Slot>)
  {
    forall i, j :: 0 <= i < j < |layout| ==> layout[i].keyword != layout[j].keyword
  }

  /** The keywords of the layout's slots, in order, are `ks`. */
  predicate KeywordsAre(layout: seq<Slot>, ks: seq<string>)
  {
    |ks| == |layout| && forall i :: 0 <= i < |ks| ==> layout[i].keyword == ks[i]
  }

  predicate DistinctStrings(ks: seq<string>)
  {
    forall i, j :: 0 <= i < j < |ks| ==> ks[i] != ks[j]
  }

  /** A layout whose keywords form a list without repetitions has distinct keywords. */
  lemma DistinctViaKeywords(layout: seq<Slot>, ks: seq<string>)
    requires KeywordsAre(layout, ks) && DistinctStrings(ks)
    ensures DistinctKeywords(layout)
  {
  }

  /** The keyword of some slot of the layout. */
  predicate IsKeywordOf(token: string, layout: seq<Slot>)
  {
    exists i :: 0 <= i < |layout| && layout[i].keyword == token
  }

  /** Tokens that cannot be mistaken for the start of one of the layout's clauses. */
  predicate NotLedByKeyword(ts: seq<string>, layout: seq<Slot>)
  {
    |ts| == 0 || !IsKeywordOf(ts[0], layout)
  }

  function EmitClause(slot: Slot, clause: Clause): seq<string>
  {
    match clause
    case Absent => []
    case Present(vs) =>
      match slot.arity
      case Fixed(_) => [slot.keyword] + vs
      case Counted => [slot.keyword, NatToString(|vs|)] + vs
  }

  /** The clauses, written in layout order. */
  function Emit(layout: seq<Slot>, clauses: seq<Clause>): seq<string>
    requires |layout| == |clauses|
    decreases |layout|
  {
    if |layout| == 0 then [] else EmitClause(layout[0], clauses[0]) + Emit(layout[1..], clauses[1..])
  }

  /** Reads the clause of one slot off the front of `ts`. */
  function TakeClause(slot: Slot, ts: seq<string>): Option<(Clause, seq<string>)>
  {
    if |ts| == 0 || ts[0] != slot.keyword then Some((Absent, ts))
    else
      match slot.arity
      case Fixed(n) =>
        if |ts| < 1 + n then None else Some((Present(ts[1..1 + n]), ts[1 + n..]))
      case Counted =>
        if |ts| < 2 then None
        else
          match ParseDecimal(ts[1])
          case None => None
          case Some(n) =>
            if n == 0 || |ts| < 2 + n then None else Some((Present(ts[2..2 + n]), ts[2 + n..]))
  }

  /** Reads every clause of the layout, in order, and returns them with the tokens left over. */
  function Parse(layout: seq<Slot>, ts: seq<string>): Option<(seq<Clause>, seq<string>)>
    decreases |layout|
  {
    if |layout| == 0 then Some(([], ts))
    else
      match TakeClause(layout[0], ts)
      case None => None
      case Some((c, rest)) =>
        match Parse(layout[1..], rest)
        case None => None
        case Some((cs, tail)) => Some(([c] + cs, tail))
  }

  /** Writing one more clause appends exactly that clause's tokens (the writer's loop step). */
  lemma {:induction false} EmitSnoc(layout: seq<Slot>, clauses: seq<Clause>, k: nat)
    requires |layout| == |clauses| && k < |layout|
    ensures Emit(layout[..k + 1], clauses[..k + 1])
         == Emit(layout[..k], clauses[..k]) + EmitClause(layout[k], clauses[k])
    decreases k
  {
    if k > 0 {
      EmitSnoc(layout[1..], clauses[1..], k - 1);
      ConcatAssoc(EmitClause(layout[0], clauses[0]), Emit(layout[1..][..k - 1], clauses[1..][..k - 1]), EmitClause(layout[k], clauses[k]));
      SliceShift(layout, k);
      SliceShift(clauses, k);
    }
  }

  /** Dropping the first element of a prefix is taking a prefix of the tail. */
  lemma SliceShift<T>(s: seq<T>, k: nat)
    requires 0 < k < |s|
    ensures s[..k + 1][1..] == s[1..][..k] && s[..k][1..] == s[1..][..k - 1]
  {
    assert s[..k + 1][1..] == s[1..][..k];
    assert s[..k][1..] == s[1..][..k - 1];
  }

  /** Layouts with no clause present write nothing. */
  lemma {:induction false} EmitNothing(layout: seq<Slot>, clauses: seq<Clause>)
    requires |layout| == |clauses|
    requires forall i :: 0 <= i < |clauses| ==> clauses[i] == Absent
    ensures Emit(layout, clauses) == []
    decreases |layout|
  {
    if |layout| > 0 {
      EmitNothing(layout[1..], clauses[1..]);
    }
  }

  /** Whatever a layout writes starts with one of its keywords. */
  lemma {:induction false} EmitLeadsWithKeyword(layout: seq<Slot>, clauses: seq<Clause>)
    requires |layout| == |clauses|
    ensures |Emit(layout, clauses)| > 0 ==> IsKeywordOf(Emit(layout, clauses)[0], layout)
    decreases |layout|
  {
    if |layout| > 0 {
      if clauses[0] == Absent {
        EmitLeadsWithKeyword(layout[1..], clauses[1..]);
        if |Emit(layout, clauses)| > 0 {
          var i :| 0 <= i < |layout[1..]| && layout[1..][i].keyword == Emit(layout, clauses)[0];
          assert layout[i + 1].keyword == Emit(layout, clauses)[0];
        }
      } else {
        assert layout[0].keyword == Emit(layout, clauses)[0];
      }
    }
  }

  lemma TakeEmittedClause(slot: Slot, clause: Clause, rest: seq<string>)
    requires Fits(slot, clause)
    requires clause == Absent ==> |rest| == 0 || rest[0] != slot.keyword
    ensures TakeClause(slot, EmitClause(slot, clause) + rest) == Some((clause, rest))
  {
    var ts := EmitClause(slot, clause) + rest;
    match clause
    case Absent =>
      assert ts == rest;
    case Present(vs) =>
      match slot.arity
      case Fixed(n) =>
        assert ts[1..1 + n] == vs && ts[1 + n..] == rest;
      case Counted =>
        DecimalRoundTrip(|vs|);
        assert ts[1] == NatToString(|vs|);
        assert ts[2..2 + |vs|] == vs && ts[2 + |vs|..] == rest;
  }

  lemma TailKeepsProperties(layout: seq<Slot>, clauses: seq<Clause>, rest: seq<string>)
    requires |layout| > 0
    requires FitsAll(layout, clauses) && DistinctKeywords(layout) && NotLedByKeyword(rest, layout)
    ensures FitsAll(layout[1..], clauses[1..]) && DistinctKeywords(layout[1..])
    ensures NotLedByKeyword(rest, layout[1..])
  {
    assert forall i :: 0 <= i < |layout[1..]| ==> layout[1..][i] == layout[i + 1];
  }

  /** When the first clause is absent, what follows cannot be mistaken for it. */
  lemma AbsentClauseSkipped(layout: seq<Slot>, clauses: seq<Clause>, rest: seq<string>)
    requires |layout| > 0 && |layout| == |clauses|
    requires DistinctKeywords(layout) && NotLedByKeyword(rest, layout)
    ensures var tail := Emit(layout[1..], clauses[1..]) + rest;
      |tail| == 0 || tail[0] != layout[0].keyword
  {
    var e := Emit(layout[1..], clauses[1..]);
    EmitLeadsWithKeyword(layout[1..], clauses[1..]);
    if |e| > 0 {
      var i :| 0 <= i < |layout[1..]| && layout[1..][i].keyword == e[0];
      assert layout[i + 1].keyword == e[0];
      assert layout[0].keyword != layout[i + 1].keyword;
      assert (e + rest)[0] == e[0];
    } else {
      assert e + rest == rest;
      assert IsKeywordOf(layout[0].keyword, layout);
    }
  }

  /**
   * The round trip: parsing what a layout with distinct keywords writes gives back the
   * clauses, and leaves whatever followed untouched when that does not start with one of
   * the layout's keywords.
   */
  lemma {:induction false} ParseEmit(layout: seq<Slot>, clauses: seq<Clause>, rest: seq<string>)
    requires FitsAll(layout, clauses) && DistinctKeywords(layout)
    requires NotLedByKeyword(rest, layout)
    ensures Parse(layout, Emit(layout, clauses) + rest) == Some((clauses, rest))
    decreases |layout|
  {
    if |layout| == 0 {
      assert Emit(layout, clauses) + rest == rest;
    } else {
      var tail := Emit(layout[1..], clauses[1..]) + rest;
      TailKeepsProperties(layout, clauses, rest);
      ParseEmit(layout[1..], clauses[1..], rest);
      if clauses[0] == Absent {
        AbsentClauseSkipped(layout, clauses, rest);
      }
      assert Fits(layout[0], clauses[0]);
      EmitCons(layout, clauses, rest);
      ParseFirst(layout, clauses[0], tail, clauses[1..], rest);
      assert [clauses[0]] + clauses[1..] == clauses;
    }
  }

  lemma EmitCons(layout: seq<Slot>, clauses: seq<Clause>, rest: seq<string>)
    requires 0 < |layout| == |clauses|
    ensures Emit(layout, clauses) + rest == EmitClause(layout[0], clauses[0]) + (Emit(layout[1..], clauses[1..]) + rest)
  {
  }

  /** The step of the round trip: a clause its slot can carry comes back, then the others. */
  lemma ParseFirst(layout: seq<Slot>, c: Clause, tail: seq<string>, cs: seq<Clause>, rest: seq<string>)
    requires |layout| > 0 && Fits(layout[0], c)
    requires c == Absent ==> |tail| == 0 || tail[0] != layout[0].keyword
    requires Parse(layout[1..], tail) == Some((cs, rest))
    ensures Parse(layout, EmitClause(layout[0], c) + tail) == Some(([c] + cs, rest))
  {
    TakeEmittedClause(layout[0], c, tail);
  }

  /** A layout written in two parts writes the two parts one after the other. */
  lemma {:induction false} EmitAppend(l1: seq<Slot>, c1: seq<Clause>, l2: seq<Slot>, c2: seq<Clause>)
    requires |l1| == |c1| && |l2| == |c2|
    ensures Emit(l1 + l2, c1 + c2) == Emit(l1, c1) + Emit(l2, c2)
    decreases |l1|
  {
    if |l1| == 0 {
      assert l1 + l2 == l2 && c1 + c2 == c2;
    } else {
      var l, c := l1 + l2, c1 + c2;
      assert l[0] == l1[0] && c[0] == c1[0];
      assert l[1..] == l1[1..] + l2 && c[1..] == c1[1..] + c2;
      EmitAppend(l1[1..], c1[1..], l2, c2);
      EmitCons(l1, c1, Emit(l2, c2));
    }
  }

  // Short layouts written clause by clause, grouped from the right as the recursion builds them.

  lemma Emit1(s1: Slot, c1: Clause)
    ensures Emit([s1], [c1]) == EmitClause(s1, c1)
  {
    assert [s1][1..] == [];
    assert [c1][1..] == [];
  }

  lemma Emit2(s1: Slot, s2: Slot, c1: Clause, c2: Clause)
    ensures Emit([s1, s2], [c1, c2]) == EmitClause(s1, c1) + EmitClause(s2, c2)
  {
    Emit1(s2, c2);
    assert [s1, s2][1..] == [s2];
    assert [c1, c2][1..] == [c2];
  }

  lemma Emit3(s1: Slot, s2: Slot, s3: Slot, c1: Clause, c2: Clause, c3: Clause)
    ensures Emit([s1, s2, s3], [c1, c2, c3]) == EmitClause(s1, c1) + (EmitClause(s2, c2) + EmitClause(s3, c3))
  {
    Emit2(s2, s3, c2, c3);
    assert [s1, s2, s3][1..] == [s2, s3];
    assert [c1, c2, c3][1..] == [c2, c3];
  }

  lemma Emit4(s1: Slot, s2: Slot, s3: Slot, s4: Slot, c1: Clause, c2: Clause, c3: Clause, c4: Clause)
    ensures Emit([s1, s2, s3, s4], [c1, c2, c3, c4])
         == EmitClause(s1, c1) + (EmitClause(s2, c2) + (EmitClause(s3, c3) + EmitClause(s4, c4)))
  {
    Emit3(s2, s3, s4, c2, c3, c4);
    assert [s1, s2, s3, s4][1..] == [s2, s3, s4];
    assert [c1, c2, c3, c4][1..] == [c2, c3, c4];
  }

  lemma Emit5(s1: Slot, s2: Slot, s3: Slot, s4: Slot, s5: Slot, c1: Clause, c2: Clause, c3: Clause, c4: Clause, c5: Clause)
    ensures Emit([s1, s2, s3, s4, s5], [c1, c2, c3, c4, c5])
         == EmitClause(s1, c1) + (EmitClause(s2, c2) + (EmitClause(s3, c3) + (EmitClause(s4, c4) + EmitClause(s5, c5))))
  {
    Emit4(s2, s3, s4, s5, c2, c3, c4, c5);
    assert [s1, s2, s3, s4, s5][1..] == [s2, s3, s4, s5];
    assert [c1, c2, c3, c4, c5][1..] == [c2, c3, c4, c5];
  }

  lemma Emit6(s1: Slot, s2: Slot, s3: Slot, s4: Slot, s5: Slot, s6: Slot,
              c1: Clause, c2: Clause, c3: Clause, c4: Clause, c5: Clause, c6: Clause)
    ensures Emit([s1, s2, s3, s4, s5, s6], [c1, c2, c3, c4, c5, c6])
         == EmitClause(s1, c1) + (EmitClause(s2, c2) + (EmitClause(s3, c3) + (EmitClause(s4, c4)
          + (EmitClause(s5, c5) + EmitClause(s6, c6)))))
  {
    Emit5(s2, s3, s4, s5, s6, c2, c3, c4, c5, c6);
    assert [s1, s2, s3, s4, s5, s6][1..] == [s2, s3, s4, s5, s6];
    assert [c1, c2, c3, c4, c5, c6][1..] == [c2, c3, c4, c5, c6];
  }

  lemma Emit7(s1: Slot, s2: Slot, s3: Slot, s4: Slot, s5: Slot, s6: Slot, s7: Slot,
              c1: Clause, c2: Clause, c3: Clause, c4: Clause, c5: Clause, c6: Clause, c7: Clause)
    ensures Emit([s1, s2, s3, s4, s5, s6, s7], [c1, c2, c3, c4, c5, c6, c7])
         == EmitClause(s1, c1) + (EmitClause(s2, c2) + (EmitClause(s3, c3) + (EmitClause(s4, c4)
          + (EmitClause(s5, c5) + (EmitClause(s6, c6) + EmitClause(s7, c7))))))
  {
    Emit6(s2, s3, s4, s5, s6, s7, c2, c3, c4, c5, c6, c7);
    assert [s1, s2, s3, s4, s5, s6, s7][1..] == [s2, s3, s4, s5, s6, s7];
    assert [c1, c2, c3, c4, c5, c6, c7][1..] == [c2, c3, c4, c5, c6, c7];
  }

  // ---------------------------------------------------------------- the writers

  /** Writes one clause: nothing when absent, else its keyword, its count when counted, its values. */
  method WriteClause(slot: Slot, clause: Clause, out: ArgWriter)
    modifies out
    ensures out.args == old(out.args) + EmitClause(slot, clause)
  {
    if clause.Present? {
      var vs := clause.values;
      ghost var e := EmitClause(slot, clause);
      ghost var h := |e| - |vs|;
      out.WriteArg(slot.keyword);
      if slot.arity.Counted? {
        out.WriteArg(NatToString(|vs|));
        ConcatAssoc(old(out.args), [slot.keyword], [NatToString(|vs|)]);
        assert e[..h] == [slot.keyword] + [NatToString(|vs|)];
      } else {
        assert e[..h] == [slot.keyword];
      }
      var i := 0;
      while i < |vs|
        invariant 0 <= i <= |vs|
        invariant out.args == old(out.args) + e[..h + i]
      {
        assert e[..h + i + 1] == e[..h + i] + [vs[i]];
        ConcatAssoc(old(out.args), e[..h + i], [vs[i]]);
        out.WriteArg(vs[i]);
        i := i + 1;
      }
      assert e[..h + i] == e;
    }
  }

  /** Writes the clauses in layout order: the body of every `write_redis_args` built on a layout. */
  method WriteLayout(layout: seq<Slot>, clauses: seq<Clause>, out: ArgWriter)
    requires |layout| == |clauses|
    modifies out
    ensures out.args == old(out.args) + Emit(layout, clauses)
  {
    var k := 0;
    while k < |layout|
      invariant 0 <= k <= |layout|
      invariant out.args == old(out.args) + Emit(layout[..k], clauses[..k])
    {
      WriteClause(layout[k], clauses[k], out);
      EmitSnoc(layout, clauses, k);
      ConcatAssoc(old(out.args), Emit(layout[..k], clauses[..k]), EmitClause(layout[k], clauses[k]));
      k := k + 1;
    }
    assert layout[..k] == layout && clauses[..k] == clauses;
  }

  /** Every slot takes exactly one value: the clauses are optional `KEY value` pairs. */
  predicate PairsOnly(layout: seq<Slot>)
  {
    forall i :: 0 <= i < |layout| ==> layout[i].arity == Fixed(1)
  }

  /** Counts the tokens of optional `KEY value` pairs, two for each pair that is set. */
  method CountPairs(layout: seq<Slot>, clauses: seq<Clause>) returns (count: nat)
    requires PairsOnly(layout) && FitsAll(layout, clauses)
    ensures count == |Emit(layout, clauses)|
  {
    count := 0;
    var k := 0;
    while k < |layout|
      invariant 0 <= k <= |layout|
      invariant count == |Emit(layout[..k], clauses[..k])|
    {
      if clauses[k].Present? {
        count := count + 2;
      }
      EmitSnoc(layout, clauses, k);
      k := k + 1;
    }
    assert layout[..k] == layout && clauses[..k] == clauses;
  }

  // ---------------------------------------------------------------- composing layouts

  lemma FitsAllAppend(l1: seq<Slot>, c1: seq<Clause>, l2: seq<Slot>, c2: seq<Clause>)
    requires FitsAll(l1, c1) && FitsAll(l2, c2)
    ensures FitsAll(l1 + l2, c1 + c2)
  {
    forall i | 0 <= i < |l1 + l2| ensures Fits((l1 + l2)[i], (c1 + c2)[i]) {
      if i < |l1| {
        assert (l1 + l2)[i] == l1[i] && (c1 + c2)[i] == c1[i];
      } else {
        assert (l1 + l2)[i] == l2[i - |l1|] && (c1 + c2)[i] == c2[i - |l1|];
      }
    }
  }

  /** No keyword of `l1` is a keyword of `l2`. */
  predicate DisjointKeywords(l1: seq<Slot>, l2: seq<Slot>)
  {
    forall i, j :: 0 <= i < |l1| && 0 <= j < |l2| ==> l1[i].keyword != l2[j].keyword
  }

  lemma DistinctAppend(l1: seq<Slot>, l2: seq<Slot>)
    requires DistinctKeywords(l1) && DistinctKeywords(l2) && DisjointKeywords(l1, l2)
    ensures DistinctKeywords(l1 + l2)
  {
    var l := l1 + l2;
    forall i, j | 0 <= i < j < |l| ensures l[i].keyword != l[j].keyword {
      if j < |l1| {
        assert l[i] == l1[i] && l[j] == l1[j];
      } else if i < |l1| {
        assert l[i] == l1[i] && l[j] == l2[j - |l1|];
      } else {
        assert l[i] == l2[i - |l1|] && l[j] == l2[j - |l1|];
      }
    }
  }

  lemma DisjointAppend(l1: seq<Slot>, l2: seq<Slot>, l3: seq<Slot>)
    requires DisjointKeywords(l1, l3) && DisjointKeywords(l2, l3)
    ensures DisjointKeywords(l1 + l2, l3)
  {
    var l := l1 + l2;
    forall i, j | 0 <= i < |l| && 0 <= j < |l3| ensures l[i].keyword != l3[j].keyword {
      if i < |l1| {
        assert l[i] == l1[i];
      } else {
        assert l[i] == l2[i - |l1|];
      }
    }
  }

  /** The round trip for a layout written in two parts. */
  lemma ParseEmit2(l1: seq<Slot>, c1: seq<Clause>, l2: seq<Slot>, c2: seq<Clause>)
    requires FitsAll(l1, c1) && FitsAll(l2, c2)
    requires DistinctKeywords(l1) && DistinctKeywords(l2) && DisjointKeywords(l1, l2)
    ensures Parse(l1 + l2, Emit(l1, c1) + Emit(l2, c2)) == Some((c1 + c2, []))
  {
    FitsAllAppend(l1, c1, l2, c2);
    DistinctAppend(l1, l2);
    EmitAppend(l1, c1, l2, c2);
    var e := Emit(l1, c1) + Emit(l2, c2);
    ParseEmit(l1 + l2, c1 + c2, []);
    assert e + [] == e;
  }

  /**
   * The round trip for a layout written in three parts (a field's leading clauses, its
   * own flags and the clauses every field shares): reading the whole gives back the parts.
   */
  lemma ParseEmit3(l1: seq<Slot>, c1: seq<Clause>, l2: seq<Slot>, c2: seq<Clause>, l3: seq<Slot>, c3: seq<Clause>)
    requires FitsAll(l1, c1) && FitsAll(l2, c2) && FitsAll(l3, c3)
    requires DistinctKeywords(l1) && DistinctKeywords(l2) && DistinctKeywords(l3)
    requires DisjointKeywords(l1, l2) && DisjointKeywords(l1, l3) && DisjointKeywords(l2, l3)
    ensures Parse(l1 + l2 + l3, Emit(l1, c1) + Emit(l2, c2) + Emit(l3, c3)) == Some((c1 + c2 + c3, []))
  {
    FitsAllAppend(l1, c1, l2, c2);
    FitsAllAppend(l1 + l2, c1 + c2, l3, c3);
    DistinctAppend(l1, l2);
    DisjointAppend(l1, l2, l3);
    DistinctAppend(l1 + l2, l3);
    EmitAppend(l1, c1, l2, c2);
    EmitAppend(l1 + l2, c1 + c2, l3, c3);
    var e := Emit(l1, c1) + Emit(l2, c2) + Emit(l3, c3);
    assert e == Emit(l1 + l2 + l3, c1 + c2 + c3);
    ParseEmit(l1 + l2 + l3, c1 + c2 + c3, []);
    assert e + [] == e;
  }

  /** The same layout and clauses emit the same tokens (stated to spare the solver a search). */
  lemma EmitCongruent(l1: seq<Slot>, c1: seq<Clause>, l2: seq<Slot>, c2: seq<Clause>)
    requires |l1| == |c1| && l1 == l2 && c1 == c2
    ensures Emit(l1, c1) == Emit(l2, c2)
  {
  }

  /** Sequence concatenation regrouped (the solver does not regroup long concatenations itself). */
  lemma ConcatAssoc<T>(a: seq<T>, b: seq<T>, c: seq<T>)
    ensures a + (b + c) == (a + b) + c
  {
  }
}
