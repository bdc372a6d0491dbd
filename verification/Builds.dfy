/** Build ids and the build list. */
module Builds {
  import opened Lexicographic
  import opened OrderedKeys
  import opened Numerals
  import opened Records
  import opened Stores
  import opened Slices

  const TWO_63: int := 0x8000_0000_0000_0000

  /** `now >> 8*k` on a signed integer. */
  function ShiftBytes(now: int, k: nat): int {
    if k == 0 then now else ShiftBytes(now, k - 1) / 256
  }

  /** Sixteen hexadecimal digits of a nanosecond clock reading. */
  function BuildId(now: int): string {
    Numeral(16, 16, now)
  }

  /** newID: eight big-endian bytes, then their hexadecimal digits. */
  method NewId(now: int) returns (id: string)
    requires -TWO_63 <= now < TWO_63
    ensures id == BuildId(now)
  {
    var b := new int[8];
    for i := 0 to 8
      invariant forall j :: 0 <= j < i ==> b[j] == ShiftBytes(now, 7 - j) % 256
    {
      b[i] := ShiftBytes(now, 7 - i) % 256;
    }
    id := "";
    for i := 0 to 8
      invariant forall j :: 0 <= j < 8 ==> b[j] == ShiftBytes(now, 7 - j) % 256
      invariant id == Numeral(16, 2 * i, ShiftBytes(now, 8 - i))
    {
      TwoDigits(2 * i, ShiftBytes(now, 7 - i));
      id := id + [Digit(b[i] / 16), Digit(b[i] % 16)];
    }
  }

  lemma TwoDigits(w: nat, x: int)
    ensures Numeral(16, w + 2, x) == Numeral(16, w, x / 256) + [Digit(x % 256 / 16), Digit(x % 256 % 16)]
  {
    assert x / 16 / 16 == x / 256 && x % 256 / 16 == x / 16 % 16 && x % 256 % 16 == x % 16;
    assert Numeral(16, w + 2, x) == Numeral(16, w + 1, x / 16) + [Digit(x % 16)];
    assert Numeral(16, w + 1, x / 16) == Numeral(16, w, x / 16 / 16) + [Digit(x / 16 % 16)];
  }

  lemma SixteenDigits()
    ensures Pow(16, 16) == 2 * TWO_63
  {
    assert Pow(16, 4) == 0x1_0000;
    assert Pow(16, 8) == 0x1_0000_0000;
    assert Pow(16, 12) == 0x1_0000_0000_0000;
  }

  lemma UnsignedIdOrder(a: nat, b: nat)
    requires a < 2 * TWO_63 && b < 2 * TWO_63
    ensures Less(BuildId(a), BuildId(b)) <==> a < b
  {
    SixteenDigits();
    FieldDecides(16, 16, a, b, "", "");
    assert BuildId(a) + "" == BuildId(a) && BuildId(b) + "" == BuildId(b);
  }

  /** The bit pattern of a 64-bit integer, read unsigned. */
  function Unsigned(a: int): nat
    requires -TWO_63 <= a < TWO_63
  {
    if a < 0 then a + 2 * TWO_63 else a
  }

  lemma IdIsUnsigned(a: int)
    requires -TWO_63 <= a < TWO_63
    ensures BuildId(a) == BuildId(Unsigned(a))
  {
    SixteenDigits();
    WrapsAround(16, 16, a);
  }

  /** Read as a hexadecimal number an id is the clock reading, unsigned. */
  lemma IdDenotes(now: int)
    requires -TWO_63 <= now < TWO_63
    ensures |BuildId(now)| == 16 && Denoted(16, BuildId(now)) == Unsigned(now)
  {
    SixteenDigits();
    IdIsUnsigned(now);
    NumeralDenotes(16, 16, Unsigned(now));
  }

  /** Ids of 64-bit clock readings sort in time order, except that readings
      before 1970 sort after all others. */
  lemma IdOrder(a: int, b: int)
    requires -TWO_63 <= a < b < TWO_63
    ensures Less(BuildId(a), BuildId(b)) <==> !(a < 0 <= b)
    ensures Less(BuildId(b), BuildId(a)) <==> a < 0 <= b
  {
    IdIsUnsigned(a);
    IdIsUnsigned(b);
    UnsignedIdOrder(Unsigned(a), Unsigned(b));
    UnsignedIdOrder(Unsigned(b), Unsigned(a));
  }

  // ---------- ListBuilds ----------

  predicate IsBuildOf(d: Doc, fn: string) {
    d.Encoded? && d.r.body.Build? && d.r.body.functionRef == fn
  }

  function BuildsIn(docs: seq<Doc>, fn: string): seq<Resource> {
    if docs == [] then [] else
    BuildsIn(docs[..|docs| - 1], fn) + (if IsBuildOf(docs[|docs| - 1], fn) then [docs[|docs| - 1].r] else [])
  }

  function BuildList(m: map<string, Doc>, project: string, fn: string): seq<Resource> {
    Reversed(BuildsIn(Listed(m, project + "/"), fn))
  }

  method ListBuilds(s: Store, project: string, fn: string) returns (out: seq<Resource>)
    requires s.Valid()
    ensures out == BuildList(s.db["builds"], project, fn)
  {
    var raws := s.List("builds", project + "/");
    out := [];
    for i := 0 to |raws|
      invariant out == BuildsIn(raws[..i], fn)
    {
      assert raws[..i + 1][..i] == raws[..i];
      if IsBuildOf(raws[i], fn) {
        out := out + [raws[i].r];
      }
    }
    assert raws[..|raws|] == raws;
    out := Reverse(out);
  }

  /** The keys whose documents BuildsIn keeps. */
  ghost function Picked(m: map<string, Doc>, ks: seq<string>, fn: string): (picked: seq<string>)
    requires forall k :: k in ks ==> k in m
    ensures forall k :: k in picked <==> k in ks && IsBuildOf(m[k], fn)
  {
    if ks == [] then [] else
    Picked(m, ks[..|ks| - 1], fn) + (if IsBuildOf(m[ks[|ks| - 1]], fn) then [ks[|ks| - 1]] else [])
  }

  /** `out` holds the resources stored under `ks`, in that order. */
  ghost predicate Reads(m: map<string, Doc>, ks: seq<string>, out: seq<Resource>) {
    |out| == |ks| && forall i :: 0 <= i < |ks| ==> ks[i] in m && m[ks[i]] == Encoded(out[i])
  }

  lemma {:induction false} BuildsInReadsPicked(m: map<string, Doc>, ks: seq<string>, fn: string)
    requires Ascends(ks) && forall k :: k in ks ==> k in m
    ensures Ascends(Picked(m, ks, fn)) && Reads(m, Picked(m, ks, fn), BuildsIn(Values(m, ks), fn))
  {
    if ks != [] {
      var rest, last := ks[..|ks| - 1], ks[|ks| - 1];
      BuildsInReadsPicked(m, rest, fn);
      assert Values(m, ks)[..|ks| - 1] == Values(m, rest);
      assert rest + [last] == ks;
      PickedBelow(m, rest, last, fn);
    }
  }

  lemma PickedBelow(m: map<string, Doc>, rest: seq<string>, last: string, fn: string)
    requires Ascends(rest + [last]) && forall k :: k in rest ==> k in m
    ensures forall i :: 0 <= i < |Picked(m, rest, fn)| ==> Less(Picked(m, rest, fn)[i], last)
  {
    var picked := Picked(m, rest, fn);
    forall i | 0 <= i < |picked| ensures Less(picked[i], last) {
      assert picked[i] in picked;
      var j :| 0 <= j < |rest| && rest[j] == picked[i];
      assert (rest + [last])[j] == rest[j] && (rest + [last])[|rest|] == last;
    }
  }

  /** In every reachable build bucket with slash-free projects, ListBuilds
      returns exactly the function's builds of that project. */
  lemma BuildListIsExact(m: map<string, Doc>, project: string, fn: string, r: Resource)
    requires SelfKeyed(m) && SlashFreeProjects(m) && SlashFree(project)
    ensures r in BuildList(m, project, fn) <==>
            (exists k :: k in m && m[k] == Encoded(r)) &&
            r.meta.project == project && r.body.Build? && r.body.functionRef == fn
  {
    var prefix := project + "/";
    var ks := KeysUnder(m, prefix);
    AscendingAscends(WithPrefix(m.Keys, prefix));
    BuildsInReadsPicked(m, ks, fn);
    var picked := Picked(m, ks, fn);
    Members(m, picked, BuildsIn(Listed(m, prefix), fn), BuildList(m, project, fn), r);
    forall k | k in m ensures k in ks <==> m[k].r.meta.project == project {
      PrefixNamesProject(project, m[k].r.meta.project, m[k].r.meta.name);
    }
  }

  /** It lists them in strictly descending name order, so of the builds named
      by newID the later trigger comes first. */
  lemma NewestTriggerFirst(m: map<string, Doc>, project: string, fn: string, i: nat, j: nat)
    requires SelfKeyed(m) && SlashFreeProjects(m) && SlashFree(project)
    requires i < j < |BuildList(m, project, fn)|
    ensures var out := BuildList(m, project, fn);
            Less(out[j].meta.name, out[i].meta.name) &&
            forall a, b | 0 <= a < TWO_63 && 0 <= b < TWO_63 &&
                          out[i].meta.name == "build-" + BuildId(a) &&
                          out[j].meta.name == "build-" + BuildId(b) :: b < a
  {
    var prefix := project + "/";
    var ks := KeysUnder(m, prefix);
    AscendingAscends(WithPrefix(m.Keys, prefix));
    BuildsInReadsPicked(m, ks, fn);
    var out := BuildList(m, project, fn);
    var picked := Picked(m, ks, fn);
    var ki, kj := picked[|out| - 1 - i], picked[|out| - 1 - j];
    assert ki in picked && kj in picked;
    PrefixNamesProject(project, out[i].meta.project, out[i].meta.name);
    PrefixNamesProject(project, out[j].meta.project, out[j].meta.name);
    CommonPrefix(prefix, out[j].meta.name, out[i].meta.name);
    forall a, b | 0 <= a < TWO_63 && 0 <= b < TWO_63 && out[i].meta.name == "build-" + BuildId(a) &&
      out[j].meta.name == "build-" + BuildId(b)
      ensures b < a
    {
      CommonPrefix("build-", BuildId(b), BuildId(a));
      UnsignedIdOrder(b, a);
    }
  }

  lemma Members(m: map<string, Doc>, ks: seq<string>, found: seq<Resource>, out: seq<Resource>, r: Resource)
    requires Reads(m, ks, found) && out == Reversed(found)
    ensures r in out <==> exists k :: k in ks && m[k] == Encoded(r)
  {
    if r in out {
      var i :| 0 <= i < |out| && out[i] == r;
      assert ks[|out| - 1 - i] in ks;
    }
    if k :| k in ks && m[k] == Encoded(r) {
      var i :| 0 <= i < |ks| && ks[i] == k;
      assert out[|out| - 1 - i] == r;
    }
  }
}
