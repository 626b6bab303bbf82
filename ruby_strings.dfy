/** The parts of Ruby's String and Array behaviour that the hook scripts rely on:
    string interpolation of nil, String#split with a one-character separator,
    Array#[] past the end, start_with? and end_with?. */
module RubyStrings {
  import opened Wrappers

  /** The separator the scripts split the metadata meeting id on. */
  const Dash: char := '-'

  /** "#{x}": a string interpolates as itself, nil as the empty string. */
  function Interpolate(o: Option<string>): (r: string)
    ensures o.Some? ==> r == o.value
    ensures o.None? ==> r == ""
  {
    match o
    case Some(s) => s
    case None => ""
  }

  /** `a[i]` for a non-negative index: the element, or nil past the end. */
  function At<T>(a: seq<T>, i: nat): (r: Option<T>)
    ensures r.Some? <==> i < |a|
    ensures r.Some? ==> r.value == a[i]
  {
    if i < |a| then Some(a[i]) else None
  }

  predicate StartsWith(s: string, prefix: string)
  {
    |prefix| <= |s| && s[..|prefix|] == prefix
  }

  predicate EndsWith(s: string, suffix: string)
  {
    |suffix| <= |s| && s[|s| - |suffix|..] == suffix
  }

  /** A string ends with whatever was appended to it last. */
  lemma EndsWithAppended(p: string, s: string)
    ensures EndsWith(p + s, s)
  {
    assert (p + s)[|p + s| - |s|..] == s;
  }

  /** A string starts with the strings it was built from, however grouped. */
  lemma StartsWithLeading(a: string, b: string, c: string, d: string)
    ensures StartsWith(a + (b + c) + d, a + b)
  {
    assert a + (b + c) + d == (a + b) + (c + d);
  }

  /** Whether a concatenation starts with a given character is decided by its non-empty first part. */
  lemma StartsWithFirstChar(s: string, t: string, c: char)
    requires s != []
    ensures StartsWith(s + t, [c]) <==> s[0] == c
  {
    assert (s + t)[..1] == [(s + t)[0]];
  }

  /** A suffix of a suffix is a suffix. */
  lemma EndsWithSuffix(s: string, t: string, u: string)
    requires EndsWith(s, t) && EndsWith(t, u)
    ensures EndsWith(s, u)
  {
    assert s[|s| - |u|..] == s[|s| - |t|..][|t| - |u|..];
  }

  /** Every Dash-separated field of s, empty ones included: the fields
      before Ruby discards the trailing empty ones. */
  function Fields(s: string): (r: seq<string>)
    ensures |r| >= 1
    ensures forall i :: 0 <= i < |r| ==> Dash !in r[i]
    decreases |s|
  {
    if s == [] then [""]
    else
      var rest := Fields(s[1..]);
      if s[0] == Dash then [""] + rest
      else [[s[0]] + rest[0]] + rest[1..]
  }

  /** The fields put back together, one Dash between neighbours. */
  function Join(fs: seq<string>): string
    requires |fs| >= 1
  {
    if |fs| == 1 then fs[0] else fs[0] + [Dash] + Join(fs[1..])
  }

  /** Ruby's Array after `split`: trailing empty strings removed.
      The result is the unique prefix of fs that is empty or ends in a
      non-empty string and leaves only empty strings behind. */
  function DropTrailingEmpty(fs: seq<string>): (r: seq<string>)
    ensures |r| <= |fs| && r == fs[..|r|]
    ensures r == [] || r[|r| - 1] != ""
    ensures forall i :: |r| <= i < |fs| ==> fs[i] == ""
    decreases |fs|
  {
    if fs == [] || fs[|fs| - 1] != "" then fs
    else DropTrailingEmpty(fs[..|fs| - 1])
  }

  /** `s.split("-")` with Ruby's default limit: the Dash-separated fields
      with trailing empty fields dropped, so "" and "--" give [] and "a-" gives ["a"]. */
  function Split(s: string): (r: seq<string>)
    ensures |r| <= |Fields(s)|
    ensures forall i :: 0 <= i < |r| ==> r[i] == Fields(s)[i]
    ensures forall i :: |r| <= i < |Fields(s)| ==> Fields(s)[i] == ""
    ensures forall i :: 0 <= i < |r| ==> Dash !in r[i]
    ensures r == [] || r[|r| - 1] != ""
  {
    DropTrailingEmpty(Fields(s))
  }

  /** Splitting at a first field that holds no Dash: that field is glued to the
      first field of the rest. */
  lemma {:induction false} FieldsOfPlainPrefix(a: string, t: string)
    requires Dash !in a
    ensures Fields(a + t) == [a + Fields(t)[0]] + Fields(t)[1..]
  {
    if a == [] {
      assert a + t == t && a + Fields(t)[0] == Fields(t)[0];
      assert Fields(t) == [Fields(t)[0]] + Fields(t)[1..];
    } else {
      FieldsOfPlainPrefix(a[1..], t);
      assert (a + t)[1..] == a[1..] + t;
      assert [a[0]] + (a[1..] + Fields(t)[0]) == a + Fields(t)[0];
    }
  }

  /** A string without a Dash is a single field. */
  lemma NoDashOneField(s: string)
    requires Dash !in s
    ensures Fields(s) == [s]
  {
    FieldsOfPlainPrefix(s, "");
    assert s + "" == s;
  }

  /** A leading Dash closes an empty first field. */
  lemma FieldsAfterDash(u: string)
    ensures Fields([Dash] + u) == [""] + Fields(u)
  {
    assert ([Dash] + u)[1..] == u;
  }

  /** Joining the fields gives the string back. */
  lemma {:induction false} JoinFields(s: string)
    ensures Join(Fields(s)) == s
    decreases |s|
  {
    if s != [] {
      var rest := Fields(s[1..]);
      JoinFields(s[1..]);
      if s[0] == Dash {
        assert Join(Fields(s)) == "" + [Dash] + Join(rest);
      } else if |rest| == 1 {
        assert Join(Fields(s)) == [s[0]] + rest[0];
      } else {
        assert Join(rest) == rest[0] + [Dash] + Join(rest[1..]);
        assert Join(Fields(s)) == ([s[0]] + rest[0]) + [Dash] + Join(rest[1..]);
      }
      assert [s[0]] + s[1..] == s;
    }
  }

  /** Splitting a join of Dash-free fields gives the fields back. */
  lemma {:induction false} FieldsJoin(fs: seq<string>)
    requires |fs| >= 1
    requires forall i :: 0 <= i < |fs| ==> Dash !in fs[i]
    ensures Fields(Join(fs)) == fs
    decreases |fs|
  {
    if |fs| == 1 {
      NoDashOneField(fs[0]);
    } else {
      var u := Join(fs[1..]);
      FieldsJoin(fs[1..]);
      FieldsAfterDash(u);
      FieldsOfPlainPrefix(fs[0], [Dash] + u);
      assert fs[0] + [Dash] + u == fs[0] + ([Dash] + u);
      assert fs[0] + "" == fs[0];
      assert fs == [fs[0]] + fs[1..];
    }
  }
}
