/** The event log's keys, `<project>/<timestamp>-<uid>`, and how their order
    relates to time. Timestamps use Go's RFC3339Nano layout, which drops the
    trailing zeros of the fraction. */
module EventKeys {
  import opened Lexicographic
  import opened Numerals

  /** A UTC instant by its civil fields, most significant first. */
  datatype Time = Time(year: nat, month: nat, day: nat, hour: nat, minute: nat, second: nat, nano: nat) {
    /** The ranges in which the layout is fixed-width. */
    predicate Valid() {
      year < 10000 && month < 100 && day < 100 && hour < 100 && minute < 100 && second < 100 && nano < 1_000_000_000
    }

    predicate SameSecond(t: Time) {
      this.(nano := 0) == t.(nano := 0)
    }

    predicate Before(t: Time) {
      year < t.year || (year == t.year &&
      (month < t.month || (month == t.month &&
      (day < t.day || (day == t.day &&
      (hour < t.hour || (hour == t.hour &&
      (minute < t.minute || (minute == t.minute &&
      (second < t.second || (second == t.second &&
      nano < t.nano)))))))))))
    }
  }

  // ---------- timestamps ----------

  /** The date and time to the second, followed by `rest`. */
  function Stamp(t: Time, rest: string): string {
    Numeral(10, 4, t.year) + ("-" + (Numeral(10, 2, t.month) + ("-" + (Numeral(10, 2, t.day) + ("T" +
    (Numeral(10, 2, t.hour) + (":" + (Numeral(10, 2, t.minute) + (":" + (Numeral(10, 2, t.second) + rest))))))))))
  }

  function DropZeros(s: string): (f: string)
    ensures f <= s
    ensures f == [] || f[|f| - 1] != '0'
    ensures forall i :: |f| <= i < |s| ==> s[i] == '0'
  {
    if s != [] && s[|s| - 1] == '0' then DropZeros(s[..|s| - 1]) else s
  }

  /** The fraction's digits without trailing zeros; empty on a whole second. */
  function Fraction(t: Time): string {
    DropZeros(Numeral(10, 9, t.nano))
  }

  function FractionTail(f: string, rest: string): string {
    if f == "" then "Z" + rest else "." + (f + ("Z" + rest))
  }

  function Format(t: Time): string {
    Stamp(t, FractionTail(Fraction(t), ""))
  }

  function EventKey(project: string, at: Time, uid: string): string {
    project + "/" + Format(at) + "-" + uid
  }

  predicate ProperPrefix(a: string, b: string) {
    a <= b && a != b
  }

  /** The pairs that sort against time: within one second, the earlier fraction
      is a proper prefix of the later one. */
  predicate Inverted(a: Time, b: Time) {
    a.SameSecond(b) && ProperPrefix(Fraction(a), Fraction(b))
  }

  lemma StampDecides(a: Time, b: Time, u: string, v: string)
    requires a.Valid() && b.Valid()
    ensures !a.SameSecond(b) ==> (Less(Stamp(a, u), Stamp(b, v)) <==> a.Before(b))
    ensures a.SameSecond(b) ==> (Less(Stamp(a, u), Stamp(b, v)) <==> Less(u, v))
  {
    assert Pow(10, 2) == 100 && Pow(10, 4) == 10000 by { assert Pow(10, 3) == 1000; }
    var u5, v5 := Numeral(10, 2, a.second) + u, Numeral(10, 2, b.second) + v;
    FieldDecides(10, 2, a.second, b.second, u, v);
    CommonPrefix(":", u5, v5);
    var u4, v4 := Numeral(10, 2, a.minute) + (":" + u5), Numeral(10, 2, b.minute) + (":" + v5);
    FieldDecides(10, 2, a.minute, b.minute, ":" + u5, ":" + v5);
    CommonPrefix(":", u4, v4);
    var u3, v3 := Numeral(10, 2, a.hour) + (":" + u4), Numeral(10, 2, b.hour) + (":" + v4);
    FieldDecides(10, 2, a.hour, b.hour, ":" + u4, ":" + v4);
    CommonPrefix("T", u3, v3);
    var u2, v2 := Numeral(10, 2, a.day) + ("T" + u3), Numeral(10, 2, b.day) + ("T" + v3);
    FieldDecides(10, 2, a.day, b.day, "T" + u3, "T" + v3);
    CommonPrefix("-", u2, v2);
    var u1, v1 := Numeral(10, 2, a.month) + ("-" + u2), Numeral(10, 2, b.month) + ("-" + v2);
    FieldDecides(10, 2, a.month, b.month, "-" + u2, "-" + v2);
    CommonPrefix("-", u1, v1);
    FieldDecides(10, 4, a.year, b.year, "-" + u1, "-" + v1);
  }

  /** Two digit strings that first differ at `i`, after their trailing zeros
      are dropped. */
  lemma DroppedDiffer(da: string, db: string, i: nat)
    requires |da| == |db| && i < |da| && da[..i] == db[..i] && '0' <= da[i] < db[i]
    ensures var fa, fb := DropZeros(da), DropZeros(db);
            i < |fb| && (if |fa| <= i then ProperPrefix(fa, fb) else fa[..i] == fb[..i] && fa[i] < fb[i])
  {
    var fa, fb := DropZeros(da), DropZeros(db);
    StartsLike(fb, db, i);
    if |fa| <= i {
      assert fa == da[..|fa|] == da[..i][..|fa|] == db[..i][..|fa|] == db[..|fa|];
      assert fb[..|fa|] == db[..|fa|];
    } else {
      StartsLike(fa, da, i);
    }
  }

  lemma StartsLike(f: string, d: string, i: nat)
    requires f <= d && i < |f|
    ensures f[..i] == d[..i] && f[i] == d[i]
  {
  }

  lemma FractionDecides(a: Time, b: Time, u: string, v: string)
    requires a.nano < b.nano < 1_000_000_000
    ensures ProperPrefix(Fraction(a), Fraction(b)) ==> Less(FractionTail(Fraction(b), v), FractionTail(Fraction(a), u))
    ensures !ProperPrefix(Fraction(a), Fraction(b)) ==> Less(FractionTail(Fraction(a), u), FractionTail(Fraction(b), v))
  {
    var da, db := Numeral(10, 9, a.nano), Numeral(10, 9, b.nano);
    NineDigits();
    NumeralsDiffer(10, 9, a.nano, b.nano);
    var i := DifferAt(da, db);
    FirstDifference(da, db, i);
    assert da[i] in da;
    DroppedDiffer(da, db, i);
    var fa, fb := Fraction(a), Fraction(b);
    if i < |fa| {
      PositionDecides(fa, fb, i, "Z" + u, "Z" + v);
    } else {
      assert fb[|fa|] in db by { assert fb[|fa|] == db[|fa|]; }
      ShorterSortsLast(fa, fb, u, v);
    }
  }

  lemma NineDigits()
    ensures Pow(10, 9) == 1_000_000_000
  {
    assert Pow(10, 3) == 1000;
    assert Pow(10, 6) == 1_000_000;
  }

  lemma PositionDecides(fa: string, fb: string, i: nat, u: string, v: string)
    requires i < |fa| && i < |fb| && fa[..i] == fb[..i] && fa[i] < fb[i]
    ensures Less("." + (fa + u), "." + (fb + v)) && !ProperPrefix(fa, fb)
  {
    var ta, tb := fa + u, fb + v;
    assert ta[..i] == fa[..i] && tb[..i] == fb[..i];
    FirstDifference(ta, tb, i);
    CommonPrefix(".", ta, tb);
  }

  /** `Z` follows every digit and the dot, so the shorter fraction sorts last. */
  lemma ShorterSortsLast(fa: string, fb: string, u: string, v: string)
    requires ProperPrefix(fa, fb) && fb[|fa|] <= '9'
    ensures Less(FractionTail(fb, v), FractionTail(fa, u))
  {
    if fa != "" {
      var ta, tb := fa + ("Z" + u), fb + ("Z" + v);
      assert ta[..|fa|] == fa && tb[..|fa|] == fa;
      FirstDifference(tb, ta, |fa|);
      CommonPrefix(".", tb, ta);
    }
  }

  /** Key order against time order, for any two events of a project: the key of
      the earlier event is the smaller one exactly when the pair is not
      inverted, and an inverted pair sorts the other way round. */
  lemma KeyOrderIsTimeOrder(project: string, a: Time, b: Time, u: string, v: string)
    requires a.Valid() && b.Valid() && a.Before(b)
    ensures Less(EventKey(project, a, u), EventKey(project, b, v)) <==> !Inverted(a, b)
    ensures Less(EventKey(project, b, v), EventKey(project, a, u)) <==> Inverted(a, b)
  {
    var pu, pv := FractionTail(Fraction(a), "-" + u), FractionTail(Fraction(b), "-" + v);
    KeyShape(project, a, u);
    KeyShape(project, b, v);
    CommonPrefix(project + "/", Stamp(a, pu), Stamp(b, pv));
    CommonPrefix(project + "/", Stamp(b, pv), Stamp(a, pu));
    StampDecides(a, b, pu, pv);
    StampDecides(b, a, pv, pu);
    if a.SameSecond(b) {
      FractionDecides(a, b, "-" + u, "-" + v);
      if Inverted(a, b) { Asymmetric(pv, pu); } else { Asymmetric(pu, pv); }
    }
  }

  /** Events of one instant sort by uid. */
  lemma SameTimeSortsByUid(project: string, t: Time, u: string, v: string)
    ensures Less(EventKey(project, t, u), EventKey(project, t, v)) <==> Less(u, v)
  {
    var p := project + "/" + Format(t) + "-";
    CommonPrefix(p, u, v);
  }

  lemma KeyShape(project: string, at: Time, uid: string)
    ensures EventKey(project, at, uid) == project + "/" + Stamp(at, FractionTail(Fraction(at), "-" + uid))
  {
    var f := Fraction(at);
    assert FractionTail(f, "") + ("-" + uid) == FractionTail(f, "-" + uid);
    StampAppend(at, FractionTail(f, ""), "-" + uid);
    assert EventKey(project, at, uid) == project + "/" + (Format(at) + ("-" + uid));
  }

  lemma StampAppend(t: Time, rest: string, more: string)
    ensures Stamp(t, rest) + more == Stamp(t, rest + more)
  {
  }

  /** The log does invert: an event on a whole second sorts after every later
      event of that second. */
  lemma WholeSecondSortsLast(project: string, a: Time, b: Time, u: string, v: string)
    requires a.Valid() && b.Valid() && a.SameSecond(b) && a.nano == 0 < b.nano
    ensures a.Before(b) && Less(EventKey(project, b, v), EventKey(project, a, u))
  {
    AllZeros(9);
    NineDigits();
    NumeralsDiffer(10, 9, a.nano, b.nano);
    assert Fraction(a) == "";
    var i := DifferAt(Numeral(10, 9, a.nano), Numeral(10, 9, b.nano));
    assert i < |Fraction(b)|;
    KeyOrderIsTimeOrder(project, a, b, u, v);
  }

  lemma {:induction false} AllZeros(w: nat)
    ensures forall i :: 0 <= i < w ==> Numeral(10, w, 0)[i] == '0'
  {
    if w != 0 { AllZeros(w - 1); }
  }

  /** The layout: dashes, `T` and colons at their places, a fraction only if there
      is one, `Z` at the end. */
  lemma FormatShape(t: Time)
    ensures var f := Format(t);
            && |f| >= 20 && f[4] == '-' && f[7] == '-' && f[10] == 'T' && f[13] == ':' && f[16] == ':'
            && f[|f| - 1] == 'Z'
            && (Fraction(t) == "" <==> |f| == 20) && (Fraction(t) != "" ==> f[19] == '.')
  {
    var tail := FractionTail(Fraction(t), "");
    StampShape(t, tail);
    TailShape(Fraction(t));
    var f := Format(t);
    assert f[|f| - 1] == f[19..][|tail| - 1] && f[19] == f[19..][0];
  }

  lemma TailShape(f: string)
    ensures var tail := FractionTail(f, "");
            && |tail| >= 1 && tail[|tail| - 1] == 'Z' && (f == "" <==> |tail| == 1) && (f != "" ==> tail[0] == '.')
  {
    assert f + ("Z" + "") == f + "Z";
  }

  lemma StampShape(t: Time, rest: string)
    ensures var f := Stamp(t, rest);
            && |f| == 19 + |rest| && f[19..] == rest
            && f[4] == '-' && f[7] == '-' && f[10] == 'T' && f[13] == ':' && f[16] == ':'
  {
    var f5 := Numeral(10, 2, t.second) + rest;
    var f4 := Numeral(10, 2, t.minute) + (":" + f5);
    var f3 := Numeral(10, 2, t.hour) + (":" + f4);
    var f2 := Numeral(10, 2, t.day) + ("T" + f3);
    var f1 := Numeral(10, 2, t.month) + ("-" + f2);
    var f := Stamp(t, rest);
    FieldEnds(Numeral(10, 4, t.year), "-", f1);
    FieldEnds(Numeral(10, 2, t.month), "-", f2);
    FieldEnds(Numeral(10, 2, t.day), "T", f3);
    FieldEnds(Numeral(10, 2, t.hour), ":", f4);
    FieldEnds(Numeral(10, 2, t.minute), ":", f5);
    assert f[5..] == f1 && f1[3..] == f2 && f2[3..] == f3 && f3[3..] == f4 && f4[3..] == f5 && f5[2..] == rest;
    assert f[8..] == f2 && f[11..] == f3 && f[14..] == f4 && f[17..] == f5 && f[19..] == rest;
    assert f[7] == f1[2] && f[10] == f2[2] && f[13] == f3[2] && f[16] == f4[2];
  }

  lemma FieldEnds(field: string, c: string, rest: string)
    requires |c| == 1
    ensures var f := field + (c + rest); f[|field|] == c[0] && f[|field| + 1..] == rest
  {
  }
}
