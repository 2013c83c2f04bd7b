/** String trimming and the stock code policy. */
module Text {
  import opened Basics

  /** The characters `str.strip` removes. */
  predicate IsSpace(c: char) {
    || '\t' <= c <= '\r'
    || '\U{1C}' <= c <= ' '
    || c == '\U{85}' || c == '\U{A0}' || c == '\U{1680}'
    || '\U{2000}' <= c <= '\U{200A}'
    || c == '\U{2028}' || c == '\U{2029}' || c == '\U{202F}' || c == '\U{205F}' || c == '\U{3000}'
  }

  function TrimLeft(s: string): string {
    if s != [] && IsSpace(s[0]) then TrimLeft(s[1..]) else s
  }

  function TrimRight(s: string): string {
    if s != [] && IsSpace(s[|s| - 1]) then TrimRight(s[..|s| - 1]) else s
  }

  function Strip(s: string): string {
    TrimRight(TrimLeft(s))
  }

  predicate IsStockCode(s: string) {
    |s| == 6 && forall i :: 0 <= i < 6 ==> '0' <= s[i] <= '9'
  }

  /** A six-digit domestic stock code with surrounding blanks removed, or `None`
      where the service raises. */
  function NormalizeStockCode(raw: string): (code: Option<string>)
    ensures code.Some? ==> IsStockCode(code.value)
    ensures IsStockCode(raw) ==> code == Some(raw)
  {
    var s := Strip(raw);
    if IsStockCode(s) then Some(s) else None
  }

  // ------------------------------------------------------------------- laws

  /** Exactly these 29 characters are blank, so no printable ASCII character but the
      space is. */
  lemma BlanksAre(c: char)
    ensures IsSpace(c) <==>
      || c in "\t\n\U{0B}\U{0C}\r\U{1C}\U{1D}\U{1E}\U{1F} \U{85}\U{A0}\U{1680}"
      || c in "\U{2000}\U{2001}\U{2002}\U{2003}\U{2004}\U{2005}\U{2006}\U{2007}\U{2008}\U{2009}\U{200A}"
      || c in "\U{2028}\U{2029}\U{202F}\U{205F}\U{3000}"
    ensures '!' <= c <= '~' ==> !IsSpace(c)
  {
  }

  ghost predicate IsBlank(s: string) {
    forall i :: 0 <= i < |s| ==> IsSpace(s[i])
  }

  /** Blank at neither end. */
  ghost predicate Trimmed(s: string) {
    s != [] && !IsSpace(s[0]) && !IsSpace(s[|s| - 1])
  }

  /** `s` is `core` between blanks. */
  ghost predicate Pads(s: string, a: string, core: string, b: string) {
    s == a + core + b && IsBlank(a) && IsBlank(b)
  }

  lemma {:induction false} TrimLeftPads(s: string) returns (a: string)
    ensures s == a + TrimLeft(s) && IsBlank(a)
    ensures TrimLeft(s) == [] || !IsSpace(TrimLeft(s)[0])
  {
    a := [];
    if s != [] && IsSpace(s[0]) {
      a := TrimLeftPads(s[1..]);
      a := [s[0]] + a;
    }
  }

  lemma {:induction false} TrimRightPads(s: string) returns (b: string)
    ensures s == TrimRight(s) + b && IsBlank(b)
    ensures TrimRight(s) == [] || !IsSpace(TrimRight(s)[|TrimRight(s)| - 1])
  {
    b := [];
    if s != [] && IsSpace(s[|s| - 1]) {
      b := TrimRightPads(s[..|s| - 1]);
      b := b + [s[|s| - 1]];
    }
  }

  /** Stripping takes blanks off both ends, and leaves none there. */
  lemma StripPads(s: string) returns (a: string, b: string)
    ensures Pads(s, a, Strip(s), b)
    ensures Strip(s) == [] || Trimmed(Strip(s))
  {
    a := TrimLeftPads(s);
    b := TrimRightPads(TrimLeft(s));
  }

  /** What is left between blanks, if it is blank at neither end, is unique. */
  lemma CoreIsUnique(s: string, a: string, c: string, b: string, a': string, c': string, b': string)
    requires Pads(s, a, c, b) && Pads(s, a', c', b') && Trimmed(c)
    requires c' == [] || Trimmed(c')
    ensures c == c'
  {
    assert !IsSpace(s[|a|]) by {
      assert s[|a|] == c[0];
    }
    assert !IsSpace(s[|a| + |c| - 1]) by {
      assert s[|a| + |c| - 1] == c[|c| - 1];
    }
    assert forall i :: 0 <= i < |a| ==> s[i] == a[i];
    assert forall i :: 0 <= i < |a'| ==> s[i] == a'[i];
    assert forall i :: |a| + |c| <= i < |s| ==> s[i] == b[i - |a| - |c|];
    assert forall i :: |a'| + |c'| <= i < |s| ==> s[i] == b'[i - |a'| - |c'|];
    assert c' != [];
    assert s[|a'|] == c'[0] && s[|a'| + |c'| - 1] == c'[|c'| - 1];
    assert |a| == |a'|;
    assert |c| == |c'|;
    assert c == s[|a|..|a| + |c|] && c' == s[|a|..|a| + |c|];
  }

  /** The law of stripping: the core between the longest blanks at both ends. */
  lemma StripIff(s: string, core: string)
    requires core == [] || Trimmed(core)
    ensures Strip(s) == core <==> exists a, b :: Pads(s, a, core, b)
  {
    var a, b := StripPads(s);
    if x, y :| Pads(s, x, core, y) {
      if core != [] {
        CoreIsUnique(s, x, core, y, a, Strip(s), b);
      } else if Strip(s) != [] {
        CoreIsUnique(s, a, Strip(s), b, x, core, y);
      }
    }
  }

  /** The code policy: a text is accepted as code `c` exactly if `c` is six ASCII
      digits and the text is `c` between blanks. */
  lemma StockCodeIff(raw: string, c: string)
    ensures NormalizeStockCode(raw) == Some(c) <==>
      && |c| == 6
      && (forall i :: 0 <= i < 6 ==> c[i] in "0123456789")
      && exists a, b :: Pads(raw, a, c, b)
  {
    if |c| == 6 && forall i :: 0 <= i < 6 ==> c[i] in "0123456789" {
      BlanksAre(c[0]);
      BlanksAre(c[5]);
      StripIff(raw, c);
    }
    if IsStockCode(c) {
      assert forall i :: 0 <= i < 6 ==> c[i] in "0123456789";
      BlanksAre(c[0]);
      BlanksAre(c[5]);
      StripIff(raw, c);
    }
  }
}
