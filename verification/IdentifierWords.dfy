/**
 * The passes of tengen/udm/model_updater.py, _identifier, against a single pass that says where the
 * words of a name begin.
 */
module IdentifierWords {
  import opened Common
  import opened Identifier

  /**
   * A word starts at a letter or digit after any other character, at a capital after a lower-case
   * letter or digit, and at a capital between a capital and a lower-case letter.
   */
  predicate WordStart(s: string, i: nat)
    requires i < |s|
  {
    i > 0 && (!Alnum(s[i - 1]) || Humps(s, i))
  }

  predicate Humps(s: string, i: nat)
    requires 0 < i < |s|
  {
    Upper(s[i]) && (Lower(s[i - 1]) || Digit(s[i - 1]) || (Upper(s[i - 1]) && i + 1 < |s| && Lower(s[i + 1])))
  }

  /** The letters and digits of a text, with an underscore before every word but the first. */
  function Words(s: string, n: nat := |s|): string
    requires n <= |s|
  {
    if n == 0 then ""
    else
      var before := Words(s, n - 1);
      if !Alnum(s[n - 1]) then before
      else before + (if before != "" && WordStart(s, n - 1) then "_" else "") + [s[n - 1]]
  }

  /** The text with an underscore at every hump. */
  function Humped(s: string, n: nat := |s|): string
    requires n <= |s|
  {
    if n == 0 then ""
    else Humped(s, n - 1) + (if n > 1 && Humps(s, n - 1) then "_" else "") + [s[n - 1]]
  }

  lemma {:induction false} AcronymsLength(s: string, n: nat)
    requires n <= |s|
    ensures SplitAcronyms(s, n) <= SplitAcronyms(s)
    ensures n > 0 ==> SplitAcronyms(s, n) != "" && Last(SplitAcronyms(s, n)) == s[n - 1]
    ensures n == 0 ==> SplitAcronyms(s, n) == ""
    decreases |s| - n
  {
    if n < |s| {
      AcronymsLength(s, n + 1);
    }
  }

  lemma {:induction false} SplitStep(s: string, n: nat)
    requires 0 < n <= |s|
    ensures |SplitAcronyms(s, n - 1)| <= |SplitAcronyms(s, n)| <= |SplitAcronyms(s)|
    ensures var a := SplitAcronyms(s);
            SplitCamel(a, |SplitAcronyms(s, n)|) ==
            SplitCamel(a, |SplitAcronyms(s, n - 1)|) + (if n > 1 && Humps(s, n - 1) then "_" else "") + [s[n - 1]]
  {
    var a, k := SplitAcronyms(s), |SplitAcronyms(s, n - 1)|;
    AcronymsLength(s, n);
    AcronymsLength(s, n - 1);
    assert n > 1 ==> a[k - 1] == s[n - 2];
    if AcronymBoundary(s, n - 1) {
      assert a[k] == '_' && a[k + 1] == s[n - 1];
      assert SplitCamel(a, k + 1) == SplitCamel(a, k) + "_";
      assert SplitCamel(a, k + 2) == SplitCamel(a, k + 1) + [a[k + 1]];
    } else {
      assert a[k] == s[n - 1];
    }
  }

  /** The two splitting passes put an underscore at every hump and nowhere else. */
  lemma {:induction false} SplitsAreHumps(s: string, n: nat)
    requires n <= |s|
    ensures |SplitAcronyms(s, n)| <= |SplitAcronyms(s)|
    ensures SplitCamel(SplitAcronyms(s), |SplitAcronyms(s, n)|) == Humped(s, n)
  {
    AcronymsLength(s, n);
    if n > 0 {
      SplitsAreHumps(s, n - 1);
      SplitStep(s, n);
    }
  }

  lemma {:induction false} HumpedLength(s: string, n: nat)
    requires n <= |s|
    ensures Humped(s, n) <= Humped(s)
    ensures n > 0 ==> Humped(s, n) != "" && Last(Humped(s, n)) == s[n - 1]
    decreases |s| - n
  {
    if n < |s| {
      HumpedLength(s, n + 1);
    }
  }

  function Edge(s: string, i: nat): string
    requires i < |s|
  {
    if Alnum(s[i]) then "" else "_"
  }

  /** How replacing goes on from one character of the text to the next. */
  lemma {:induction false} ReplaceStep(s: string, n: nat)
    requires 0 < n <= |s|
    ensures |Humped(s, n - 1)| <= |Humped(s, n)| <= |Humped(s)|
    ensures var before, c := Replace(Humped(s), |Humped(s, n - 1)|), s[n - 1];
            Replace(Humped(s), |Humped(s, n)|) ==
            if !Alnum(c) then (if n > 1 && !Alnum(s[n - 2]) then before else before + "_")
            else if n > 1 && Humps(s, n - 1) then before + "_" + [c]
            else before + [c]
  {
    var h, k := Humped(s), |Humped(s, n - 1)|;
    HumpedLength(s, n);
    HumpedLength(s, n - 1);
    assert n > 1 ==> h[k - 1] == s[n - 2];
    assert n == 1 ==> k == 0;
    if n > 1 && Humps(s, n - 1) {
      assert h[k] == '_' && h[k + 1] == s[n - 1];
      assert Replace(h, k + 1) == Replace(h, k) + "_";
      assert Replace(h, k + 2) == Replace(h, k + 1) + [h[k + 1]];
    } else {
      assert h[k] == s[n - 1];
    }
  }

  /** What replacing makes of the first n characters: the words, with an underscore for what stands around them. */
  function Framed(s: string, n: nat): string
    requires n <= |s|
  {
    if n == 0 then ""
    else if Words(s, n) == "" then "_"
    else Edge(s, 0) + Words(s, n) + Edge(s, n - 1)
  }

  lemma {:induction false} NoWordsYet(s: string, n: nat)
    requires n <= |s|
    ensures Words(s, n) == "" <==> forall i :: 0 <= i < n ==> !Alnum(s[i])
  {
    if n > 0 {
      NoWordsYet(s, n - 1);
    }
  }

  lemma {:induction false} FramedStep(s: string, n: nat)
    requires 0 < n <= |s|
    ensures var before, c := Framed(s, n - 1), s[n - 1];
            Framed(s, n) ==
            if !Alnum(c) then (if n > 1 && !Alnum(s[n - 2]) then before else before + "_")
            else if n > 1 && Humps(s, n - 1) then before + "_" + [c]
            else before + [c]
  {
    NoWordsYet(s, n - 1);
    NoWordsYet(s, n);
    var c := s[n - 1];
    if Words(s, n - 1) == "" {
      assert Words(s, n) == if Alnum(c) then [c] else "";
    } else {
      var e, w := Edge(s, 0), Words(s, n - 1);
      assert Alnum(c) ==> Words(s, n) == w + (if WordStart(s, n - 1) then "_" else "") + [c];
      assert e + w + "" == e + w;
      assert e + w + "_" + [c] == e + (w + "_" + [c]) + "";
      assert e + w + [c] == e + (w + "" + [c]) + "";
    }
  }

  lemma {:induction false} ReplacedAreWords(s: string, n: nat)
    requires n <= |s|
    ensures |Humped(s, n)| <= |Humped(s)| && Replace(Humped(s), |Humped(s, n)|) == Framed(s, n)
  {
    HumpedLength(s, n);
    if n > 0 {
      ReplacedAreWords(s, n - 1);
      ReplaceStep(s, n);
      FramedStep(s, n);
    }
  }

  lemma {:induction false} WordsShape(s: string, n: nat)
    requires n <= |s| && Words(s, n) != ""
    ensures Alnum(Words(s, n)[0]) && Alnum(Last(Words(s, n)))
  {
    if !Alnum(s[n - 1]) || Words(s, n - 1) != "" {
      WordsShape(s, n - 1);
    }
  }

  /** Stripping takes the frame away. */
  lemma {:induction false} StripFrame(left: string, w: string, right: string)
    requires left in {"", "_"} && right in {"", "_"} && w != "" && w[0] != '_' && Last(w) != '_'
    ensures StripRight(StripLeft(left + w + right)) == w
  {
    var tail := w + right;
    assert left + w + right == left + tail;
    assert StripLeft(tail) == tail;
    assert left == "_" ==> (left + tail)[1..] == tail;
    assert left == "" ==> left + tail == tail;
    assert StripRight(w) == w;
    assert right == "_" ==> tail[..|tail| - 1] == w;
    assert right == "" ==> tail == w;
  }

  lemma {:induction false} CleanedAreWords(text: string)
    ensures Cleaned(text) == LowerCase(Words(text))
  {
    SplitsAreHumps(text, |text|);
    ReplacedAreWords(text, |text|);
    var w := Words(text);
    if w != "" {
      WordsShape(text, |text|);
      StripFrame(Edge(text, 0), w, Edge(text, |text| - 1));
    } else if text != "" {
      assert StripLeft("_") == "" by { assert "_"[1..] == ""; }
    }
  }

  /**
   * The identifier is the words of the text, lower-cased and joined by underscores; only an empty one
   * and one that starts with a digit are patched.
   */
  lemma {:induction false} IdentifierSpellsWords(text: string)
    ensures var name := LowerCase(Words(text));
            Identifier.Identifier(text) == if name == "" then "field" else if Digit(name[0]) then "f_" + name else name
  {
    CleanedAreWords(text);
    CleanedShape(text);
  }
}
