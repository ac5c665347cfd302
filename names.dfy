/**
  The route-name rules: the trimmed title with its defaults (script.js:99, script.js:113)
  and the export file name, where each run of whitespace becomes one `_` (script.js:125).
 */
module Names {

  /** JavaScript's white space and line terminators: what `String.prototype.trim` strips and what `\s` matches. */
  predicate IsSpace(c: char)
  {
    c == '\t' || c == '\n' || c == '\U{000B}' || c == '\U{000C}' || c == '\r' || c == ' '
    || c == '\U{00A0}' || c == '\U{1680}' || ('\U{2000}' <= c <= '\U{200A}')
    || c == '\U{2028}' || c == '\U{2029}' || c == '\U{202F}' || c == '\U{205F}'
    || c == '\U{3000}' || c == '\U{FEFF}'
  }

  predicate NoSpace(s: string)
  {
    forall i :: 0 <= i < |s| ==> !IsSpace(s[i])
  }

  predicate AllSpace(s: string)
  {
    forall i :: 0 <= i < |s| ==> IsSpace(s[i])
  }

  /** `s` without its leading whitespace. */
  function TrimStart(s: string): (r: string)
    ensures |r| <= |s|
    ensures r == [] || !IsSpace(r[0])
    ensures r == [] <==> AllSpace(s)
  {
    if s != [] && IsSpace(s[0]) then TrimStart(s[1..]) else s
  }

  /** What TrimStart drops is a whitespace prefix; what it keeps is the rest of `s`. */
  lemma {:induction false} TrimStartSuffix(s: string)
    ensures TrimStart(s) == s[|s| - |TrimStart(s)|..]
    ensures AllSpace(s[..|s| - |TrimStart(s)|])
  {
    if s != [] && IsSpace(s[0]) {
      TrimStartSuffix(s[1..]);
      var k := |s| - |TrimStart(s)|;
      assert s[1..][k - 1..] == s[k..];
      assert forall i :: 0 <= i < k ==> s[..k][i] == s[i];
      assert forall i :: 1 <= i < k ==> s[i] == s[1..][..k - 1][i - 1];
    }
  }

  /** `s` without its trailing whitespace. */
  function TrimEnd(s: string): (r: string)
    ensures |r| <= |s|
    ensures r == [] || !IsSpace(r[|r| - 1])
    ensures r == [] <==> AllSpace(s)
  {
    if s != [] && IsSpace(s[|s| - 1]) then TrimEnd(s[..|s| - 1]) else s
  }

  /** What TrimEnd drops is a whitespace suffix; what it keeps is the rest of `s`. */
  lemma {:induction false} TrimEndPrefix(s: string)
    ensures TrimEnd(s) == s[..|TrimEnd(s)|]
    ensures AllSpace(s[|TrimEnd(s)|..])
  {
    if s != [] && IsSpace(s[|s| - 1]) {
      var init := s[..|s| - 1];
      TrimEndPrefix(init);
      var k := |TrimEnd(s)|;
      assert init[..k] == s[..k];
      assert s[k..] == init[k..] + [s[|s| - 1]];
    }
  }

  /** `String.prototype.trim`: empty exactly for all-whitespace input, otherwise bounded by non-whitespace. */
  function Trim(s: string): (r: string)
    ensures |r| <= |s|
    ensures r == [] <==> AllSpace(s)
    ensures r != [] ==> !IsSpace(r[0]) && !IsSpace(r[|r| - 1])
  {
    var t := TrimStart(s);
    var r := TrimEnd(t);
    assert t != [] ==> !AllSpace(t);
    assert r != [] ==> r[0] == t[0] by {
      TrimEndPrefix(t);
    }
    r
  }

  /** Slicing a suffix of `s` again is slicing `s`. */
  lemma SliceOfSuffix(s: string, k: nat, m: nat)
    requires k + m <= |s|
    ensures s[k..][..m] == s[k..k + m] && s[k..][m..] == s[k + m..]
  {
  }

  /** The trimmed text starts where TrimStart leaves off and is a slice of `s`. */
  lemma TrimIsSlice(s: string)
    ensures var k := |s| - |TrimStart(s)|;
      k + |Trim(s)| <= |s| && Trim(s) == s[k..k + |Trim(s)|]
  {
    var t := TrimStart(s);
    var k := |s| - |t|;
    TrimStartSuffix(s);
    TrimEndPrefix(t);
    SliceOfSuffix(s, k, |TrimEnd(t)|);
  }

  /** What follows the trimmed text in `s` is whitespace. */
  lemma TrimDropsSpaceSuffix(s: string)
    ensures var k := |s| - |TrimStart(s)|;
      k + |Trim(s)| <= |s| && AllSpace(s[k + |Trim(s)|..])
  {
    var t := TrimStart(s);
    var k := |s| - |t|;
    TrimStartSuffix(s);
    TrimEndPrefix(t);
    SliceOfSuffix(s, k, |TrimEnd(t)|);
  }

  /** Trim keeps the text's own middle part: all of `s` between a whitespace prefix and a whitespace suffix. */
  lemma TrimMiddle(s: string)
    ensures var k := |s| - |TrimStart(s)|;
      k + |Trim(s)| <= |s| &&
      Trim(s) == s[k..k + |Trim(s)|] && AllSpace(s[..k]) && AllSpace(s[k + |Trim(s)|..])
  {
    TrimStartSuffix(s);
    TrimIsSlice(s);
    TrimDropsSpaceSuffix(s);
  }

  /** `title.trim() || fallback`. */
  function TrimOr(title: string, fallback: string): (r: string)
    requires fallback != [] && !IsSpace(fallback[0]) && !IsSpace(fallback[|fallback| - 1])
    ensures r != [] && !IsSpace(r[0]) && !IsSpace(r[|r| - 1])
    ensures AllSpace(title) ==> r == fallback
    ensures !AllSpace(title) ==> r == Trim(title)
  {
    var t := Trim(title);
    if t == [] then fallback else t
  }

  /** The name saveRoute stores. */
  function SaveName(title: string): (r: string)
    ensures r != [] && !IsSpace(r[0]) && !IsSpace(r[|r| - 1])
    ensures AllSpace(title) ==> r == "Без названия"
    ensures !AllSpace(title) ==> r == Trim(title)
  {
    TrimOr(title, "Без названия")
  }

  /** The name exportRoute writes into the document. */
  function ExportName(title: string): (r: string)
    ensures r != [] && !IsSpace(r[0]) && !IsSpace(r[|r| - 1])
    ensures AllSpace(title) ==> r == "Маршрут"
    ensures !AllSpace(title) ==> r == Trim(title)
  {
    TrimOr(title, "Маршрут")
  }

  /** `s.replace(/\s+/g, '_')`: every maximal run of whitespace becomes a single `_`. */
  function CollapseSpaces(s: string): (r: string)
    ensures NoSpace(r)
    ensures |r| <= |s|
    ensures r == [] <==> s == []
    decreases |s|
  {
    if s == [] then []
    else if IsSpace(s[0]) then "_" + CollapseSpaces(TrimStart(s[1..]))
    else [s[0]] + CollapseSpaces(s[1..])
  }

  /** Text without whitespace is left as it is. */
  lemma {:induction false} CollapseKeepsWords(s: string)
    requires NoSpace(s)
    ensures CollapseSpaces(s) == s
  {
    if s != [] {
      CollapseKeepsWords(s[1..]);
    }
  }

  /** Leading whitespace is dropped up to the first non-whitespace character. */
  lemma {:induction false} TrimStartSkipsRun(run: string, rest: string)
    requires AllSpace(run)
    requires rest == [] || !IsSpace(rest[0])
    ensures TrimStart(run + rest) == rest
  {
    if run == [] {
      assert run + rest == rest;
    } else {
      assert (run + rest)[1..] == run[1..] + rest;
      TrimStartSkipsRun(run[1..], rest);
    }
  }

  /** A text that ends in a non-whitespace character loses only its own leading whitespace. */
  lemma {:induction false} TrimStartPrefix(a: string, b: string)
    requires a != [] && !IsSpace(a[|a| - 1])
    ensures TrimStart(a + b) == TrimStart(a) + b
  {
    if IsSpace(a[0]) {
      assert (a + b)[1..] == a[1..] + b;
      assert a[1..][|a| - 2] == a[|a| - 1];
      TrimStartPrefix(a[1..], b);
    } else {
      assert (a + b)[0] == a[0];
    }
  }

  /** A maximal run of whitespace becomes exactly one `_`. */
  lemma CollapseRun(run: string, rest: string)
    requires run != [] && AllSpace(run)
    requires rest == [] || !IsSpace(rest[0])
    ensures CollapseSpaces(run + rest) == "_" + CollapseSpaces(rest)
  {
    assert (run + rest)[0] == run[0];
    assert (run + rest)[1..] == run[1..] + rest;
    TrimStartSkipsRun(run[1..], rest);
  }

  /** One step of the rewrite, on the first character. */
  lemma CollapseCons(c: char, s: string)
    ensures CollapseSpaces([c] + s) ==
      if IsSpace(c) then "_" + CollapseSpaces(TrimStart(s)) else [c] + CollapseSpaces(s)
  {
    assert ([c] + s)[0] == c;
    assert ([c] + s)[1..] == s;
  }

  /** Text that ends at a word boundary is rewritten independently of what follows it. */
  lemma {:induction false} CollapseAtWordEnd(a: string, b: string)
    requires a == [] || !IsSpace(a[|a| - 1])
    ensures CollapseSpaces(a + b) == CollapseSpaces(a) + CollapseSpaces(b)
    decreases |a|, 1
  {
    if a == [] {
      assert a + b == b;
    } else if IsSpace(a[0]) {
      CollapseAtWordEndRun(a, b);
    } else {
      CollapseAtWordEndWord(a, b);
    }
  }

  /** A leading whitespace character becomes `_` and takes the rest of its run with it. */
  lemma CollapseRunHead(a: string, b: string)
    requires a != [] && IsSpace(a[0])
    ensures CollapseSpaces(a + b) == "_" + CollapseSpaces(TrimStart(a[1..] + b))
    ensures CollapseSpaces(a) == "_" + CollapseSpaces(TrimStart(a[1..]))
  {
    assert a + b == [a[0]] + (a[1..] + b);
    CollapseCons(a[0], a[1..] + b);
    assert a == [a[0]] + a[1..];
    CollapseCons(a[0], a[1..]);
  }

  /** Trimming leading whitespace keeps a non-whitespace last character. */
  lemma TrimStartKeepsLast(s: string)
    requires s != [] && !IsSpace(s[|s| - 1])
    ensures TrimStart(s) != [] && TrimStart(s)[|TrimStart(s)| - 1] == s[|s| - 1]
  {
    var r := TrimStart(s);
    assert !AllSpace(s);
    TrimStartSuffix(s);
    assert r[|r| - 1] == s[|s| - |r|..][|r| - 1];
  }

  /** CollapseAtWordEnd when `a` opens with whitespace. */
  lemma {:induction false} CollapseAtWordEndRun(a: string, b: string)
    requires a != [] && IsSpace(a[0]) && !IsSpace(a[|a| - 1])
    ensures CollapseSpaces(a + b) == CollapseSpaces(a) + CollapseSpaces(b)
    decreases |a|, 0
  {
    var tail := a[1..];
    assert tail[|tail| - 1] == a[|a| - 1];
    CollapseRunHead(a, b);
    TrimStartKeepsLast(tail);
    TrimStartPrefix(tail, b);
    var t := TrimStart(tail);
    CollapseAtWordEnd(t, b);
  }

  /** A leading non-whitespace character is kept as it is. */
  lemma CollapseWordHead(a: string, b: string)
    requires a != [] && !IsSpace(a[0])
    ensures CollapseSpaces(a + b) == [a[0]] + CollapseSpaces(a[1..] + b)
    ensures CollapseSpaces(a) == [a[0]] + CollapseSpaces(a[1..])
  {
    assert a + b == [a[0]] + (a[1..] + b);
    CollapseCons(a[0], a[1..] + b);
    assert a == [a[0]] + a[1..];
    CollapseCons(a[0], a[1..]);
  }

  /** CollapseAtWordEnd when `a` opens with a non-whitespace character. */
  lemma {:induction false} CollapseAtWordEndWord(a: string, b: string)
    requires a != [] && !IsSpace(a[0]) && !IsSpace(a[|a| - 1])
    ensures CollapseSpaces(a + b) == CollapseSpaces(a) + CollapseSpaces(b)
    decreases |a|, 0
  {
    var tail := a[1..];
    assert tail == [] || tail[|tail| - 1] == a[|a| - 1];
    CollapseWordHead(a, b);
    CollapseAtWordEnd(tail, b);
  }

  /** Appending the extension keeps a whitespace-free stem free of whitespace. */
  lemma JsonSuffix(stem: string)
    requires stem != [] && NoSpace(stem)
    ensures |stem + ".json"| > 5 && (stem + ".json")[|stem + ".json"| - 5..] == ".json"
    ensures NoSpace(stem + ".json")
  {
    var ext := ".json";
    assert NoSpace(ext);
    assert (stem + ext)[|stem|..] == ext;
    forall i | 0 <= i < |stem + ext|
      ensures !IsSpace((stem + ext)[i])
    {
      if i < |stem| {
        assert (stem + ext)[i] == stem[i];
      } else {
        assert (stem + ext)[i] == ext[i - |stem|];
      }
    }
  }

  /** The file name exportRoute downloads to. */
  function ExportFileName(title: string): (r: string)
    ensures |r| > 5 && r[|r| - 5..] == ".json"
    ensures NoSpace(r)
  {
    var stem := CollapseSpaces(ExportName(title));
    JsonSuffix(stem);
    stem + ".json"
  }
}
