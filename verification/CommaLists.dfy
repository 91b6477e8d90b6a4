/** Lists joined with commas and read back (`frontend/src/lib/queryParams.ts`). */
module CommaLists {

  /** The white space `String.prototype.trim` removes. */
  predicate IsSpace(c: char) {
    var n := c as int;
    || 9 <= n <= 13 || n == 32 || n == 160 || n == 0x1680 || 0x2000 <= n <= 0x200A
    || n == 0x2028 || n == 0x2029 || n == 0x202F || n == 0x205F || n == 0x3000 || n == 0xFEFF
  }

  function TrimStart(s: string): (t: string)
    ensures t == "" || !IsSpace(t[0])
    ensures |t| <= |s| && t == s[|s| - |t|..]
  {
    if s != "" && IsSpace(s[0]) then TrimStart(s[1..]) else s
  }

  function TrimEnd(s: string): (t: string)
    ensures t == "" || !IsSpace(t[|t| - 1])
    ensures |t| <= |s| && t == s[..|t|]
  {
    if s != "" && IsSpace(s[|s| - 1]) then TrimEnd(s[..|s| - 1]) else s
  }

  function Trim(s: string): string {
    TrimEnd(TrimStart(s))
  }

  ghost predicate Trimmed(s: string) {
    s == "" || (!IsSpace(s[0]) && !IsSpace(s[|s| - 1]))
  }

  lemma TrimTrims(s: string)
    ensures Trimmed(Trim(s))
    ensures Trimmed(s) <==> Trim(s) == s
  {
    var t := TrimStart(s);
    var u := TrimEnd(t);
    if u != "" {
      assert u[0] == t[0];
    }
  }

  /** `xs.join(",")` */
  function Join(xs: seq<string>): string {
    if xs == [] then "" else if |xs| == 1 then xs[0] else xs[0] + "," + Join(xs[1..])
  }

  /** `s.split(",")` */
  function Split(s: string): (parts: seq<string>)
    ensures parts != []
  {
    if s == "" then [""]
    else if s[0] == ',' then [""] + Split(s[1..])
    else
      var rest := Split(s[1..]);
      [[s[0]] + rest[0]] + rest[1..]
  }

  ghost predicate CommaFree(s: string) {
    forall k :: 0 <= k < |s| ==> s[k] != ','
  }

  /** `xs.map((a) => a.trim())` */
  function TrimAll(xs: seq<string>): seq<string> {
    seq(|xs|, i requires 0 <= i < |xs| => Trim(xs[i]))
  }

  /** `xs.filter(p)` */
  function Filter<T>(p: T -> bool, xs: seq<T>): seq<T> {
    if xs == [] then [] else (if p(xs[0]) then [xs[0]] else []) + Filter(p, xs[1..])
  }

  predicate NonEmpty(s: string) {
    s != ""
  }

  /** `s.split(",").map((a) => a.trim()).filter(Boolean)` */
  function ParseList(s: string): seq<string> {
    Filter(NonEmpty, TrimAll(Split(s)))
  }

  /** An entry that survives being joined and read back. */
  ghost predicate Plain(s: string) {
    s != "" && CommaFree(s) && Trimmed(s)
  }

  ghost predicate AllPlain(xs: seq<string>) {
    forall k :: 0 <= k < |xs| ==> Plain(xs[k])
  }

  lemma {:induction false} SplitCommaFree(s: string)
    requires CommaFree(s)
    ensures Split(s) == [s]
  {
    if s != "" {
      SplitCommaFree(s[1..]);
      assert [s[0]] + s[1..] == s;
    }
  }

  lemma {:induction false} SplitFirst(x: string, rest: string)
    requires CommaFree(x)
    ensures Split(x + "," + rest) == [x] + Split(rest)
  {
    if x == "" {
      assert ("" + "," + rest)[1..] == rest;
    } else {
      var s := x + "," + rest;
      assert s[1..] == x[1..] + "," + rest;
      SplitFirst(x[1..], rest);
      assert [x[0]] + x[1..] == x;
    }
  }

  lemma {:induction false} SplitJoin(xs: seq<string>)
    requires xs != [] && AllPlain(xs)
    ensures Split(Join(xs)) == xs
  {
    if |xs| == 1 {
      SplitCommaFree(xs[0]);
    } else {
      SplitJoin(xs[1..]);
      SplitFirst(xs[0], Join(xs[1..]));
    }
  }

  /** Filtering keeps the members that pass. */
  lemma {:induction false} FilterMembers<T>(p: T -> bool, xs: seq<T>)
    ensures forall x :: x in Filter(p, xs) <==> x in xs && p(x)
  {
    if xs != [] {
      FilterMembers(p, xs[1..]);
      assert xs == [xs[0]] + xs[1..];
    }
  }

  /** Filtering keeps the whole list exactly when every member passes. */
  lemma {:induction false} FilterKeepsAll<T>(p: T -> bool, xs: seq<T>)
    ensures Filter(p, xs) == xs <==> forall k :: 0 <= k < |xs| ==> p(xs[k])
  {
    if xs != [] && forall k :: 0 <= k < |xs| ==> p(xs[k]) {
      FilterKeepsAll(p, xs[1..]);
    }
    FilterMembers(p, xs);
  }

  lemma TrimAllKeeps(xs: seq<string>)
    requires forall k :: 0 <= k < |xs| ==> Trimmed(xs[k])
    ensures TrimAll(xs) == xs
  {
    forall k | 0 <= k < |xs| ensures TrimAll(xs)[k] == xs[k] {
      TrimTrims(xs[k]);
    }
  }

  lemma TrimIsCommaFree(s: string)
    requires CommaFree(s)
    ensures CommaFree(Trim(s))
  {
    assert forall k :: 0 <= k < |Trim(s)| ==> Trim(s)[k] in s;
  }

  lemma {:induction false} SplitIsCommaFree(s: string)
    ensures forall k :: 0 <= k < |Split(s)| ==> CommaFree(Split(s)[k])
  {
    if s != "" {
      SplitIsCommaFree(s[1..]);
    }
  }

  /** Whatever is read from a list is plain. */
  lemma ParsedIsPlain(s: string)
    ensures AllPlain(ParseList(s))
  {
    hide CommaFree, Trim, Trimmed;
    var parts, read := Split(s), ParseList(s);
    FilterMembers(NonEmpty, TrimAll(parts));
    SplitIsCommaFree(s);
    forall k | 0 <= k < |read| ensures Plain(read[k]) {
      assert read[k] in TrimAll(parts);
      var i :| 0 <= i < |parts| && read[k] == Trim(parts[i]);
      TrimTrims(parts[i]);
      TrimIsCommaFree(parts[i]);
    }
  }

  lemma {:induction false} JoinOfPlain(xs: seq<string>)
    requires xs != [] && AllPlain(xs)
    ensures Join(xs) != ""
  {
    assert Plain(xs[0]);
  }

  lemma PlainIsParsed(xs: seq<string>)
    requires AllPlain(xs)
    ensures Filter(NonEmpty, TrimAll(xs)) == xs
  {
    hide CommaFree, Trimmed;
    assert forall k :: 0 <= k < |xs| ==> Plain(xs[k]);
    TrimAllKeeps(xs);
    FilterKeepsAll(NonEmpty, xs);
  }

  /** A non-empty list survives exactly when its entries are plain. */
  lemma ListRoundTrip(xs: seq<string>)
    requires xs != []
    ensures Join(xs) != "" && ParseList(Join(xs)) == xs <==> AllPlain(xs)
  {
    hide CommaFree, Trimmed;
    if AllPlain(xs) {
      JoinOfPlain(xs);
      SplitJoin(xs);
      PlainIsParsed(xs);
    }
    ParsedIsPlain(Join(xs));
  }
}
