/** How content types are compared: without parameters, blanks around them, and differences of case. */
module ContentTypes {
  import opened Options
  import opened Offsets
  import opened Tables

  predicate AllBlank(s: string) { forall c :: c in s ==> IsBlank(c) }

  /** A media type as it is written: no blanks at its ends, no parameters. */
  predicate IsBare(s: string) { s != [] && !IsBlank(s[0]) && !IsBlank(s[|s| - 1]) && ';' !in s }

  lemma {:induction false} TrimsFront(a: string, s: string)
    requires AllBlank(a) && (s == [] || !IsBlank(s[0]))
    ensures TrimStart(a + s) == s
  {
    if a == [] {
      assert a + s == s;
    } else {
      assert (a + s)[1..] == a[1..] + s;
      TrimsFront(a[1..], s);
    }
  }

  lemma {:induction false} TrimsEnd(s: string, b: string)
    requires AllBlank(b) && s != [] && !IsBlank(s[|s| - 1])
    ensures TrimEnd(s + b) == s
    decreases |b|
  {
    if b == [] {
      assert s + b == s;
    } else {
      assert (s + b)[..|s + b| - 1] == s + b[..|b| - 1];
      TrimsEnd(s, b[..|b| - 1]);
    }
  }

  lemma Trimmed(a: string, s: string, b: string)
    requires AllBlank(a) && AllBlank(b) && s != [] && !IsBlank(s[0]) && !IsBlank(s[|s| - 1])
    ensures Trim(a + s + b) == s
  {
    assert a + s + b == a + (s + b);
    TrimsFront(a, s + b);
    TrimsEnd(s, b);
  }

  /** Of a header only the media type counts, in lower case; blanks around it and parameters after it do not. */
  lemma OnlyTheBareTypeCounts(a: string, s: string, b: string, parameters: string)
    requires AllBlank(a) && AllBlank(b) && IsBare(s)
    ensures NormalizeContentType(Some(a + s + b)) == Lower(s)
    ensures NormalizeContentType(Some(a + s + b + ";" + parameters)) == Lower(s)
  {
    var bare, full := a + s + b, a + s + b + ";" + parameters;
    Trimmed(a, s, b);
    NoSemicolon(a, s, b);
    assert bare[..|bare|] == bare;
    assert full[..|bare|] == bare && full[|bare|] == ';';
    assert forall i :: 0 <= i < |bare| ==> full[i] == bare[i];
    FindsFirst(full, |bare|);
    FindsNone(bare);
  }

  lemma NoSemicolon(a: string, s: string, b: string)
    requires AllBlank(a) && AllBlank(b) && ';' !in s
    ensures ';' !in a + s + b
  {}

  lemma FindsFirst(s: string, i: nat)
    requires i < |s| && s[i] == ';' && forall j :: 0 <= j < i ==> s[j] != ';'
    ensures Find(s, ';') == i
  {}

  lemma FindsNone(s: string)
    requires ';' !in s
    ensures Find(s, ';') == |s|
  {}

  /** So types that differ in case alone agree, and others do not. */
  lemma AgreeUpToCase(s: string, t: string)
    requires IsBare(s) && IsBare(t)
    ensures NormalizeContentType(Some(s)) == NormalizeContentType(Some(t)) <==> Lower(s) == Lower(t)
  {
    OnlyTheBareTypeCounts("", s, "", "");
    OnlyTheBareTypeCounts("", t, "", "");
    assert "" + s + "" == s && "" + t + "" == t;
  }

  /** Lower case changes the letters A to Z, one for one, and nothing else. */
  lemma LowerIs(s: string, i: nat)
    requires i < |s|
    ensures |Lower(s)| == |s|
    ensures Lower(s)[i] == if 'A' <= s[i] <= 'Z' then 'a' + (s[i] - 'A') else s[i]
  {}

  /** A header that is blank, or holds other than printable characters and tabs, counts as none. */
  lemma UnprintableCountsAsNone(value: string)
    ensures SanitizeContentType(Some(value), true).Some? <==>
              !AllBlank(value) && forall c :: c in value ==> c == '\t' || ' ' <= c <= '~'
    ensures SanitizeContentType(Some(value), true).Some? ==> SanitizeContentType(Some(value), true) == Some(value)
  {
    BlankIffTrimmedAway(value);
  }

  lemma {:induction false} BlankIffTrimmedAway(s: string)
    ensures Trim(s) == "" <==> AllBlank(s)
  {
    StartTrimmed(s);
    var t := TrimStart(s);
    if t != [] {
      EndKeeps(t);
    }
  }

  lemma {:induction false} StartTrimmed(s: string)
    ensures TrimStart(s) == "" <==> AllBlank(s)
    ensures TrimStart(s) != "" ==> !IsBlank(TrimStart(s)[0])
  {
    if s != [] && IsBlank(s[0]) {
      StartTrimmed(s[1..]);
      assert s == [s[0]] + s[1..];
    }
  }

  lemma {:induction false} EndKeeps(s: string)
    requires s != [] && !IsBlank(s[0])
    ensures TrimEnd(s) != ""
    decreases |s|
  {
    if IsBlank(s[|s| - 1]) {
      EndKeeps(s[..|s| - 1]);
    }
  }
}
