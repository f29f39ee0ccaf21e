/** Turning field names into Python identifiers: tengen/udm/model_updater.py, _identifier. */
module Identifier {
  import opened Common

  predicate Upper(c: char) { 'A' <= c <= 'Z' }

  predicate Lower(c: char) { 'a' <= c <= 'z' }

  predicate Digit(c: char) { '0' <= c <= '9' }

  predicate Alnum(c: char) { Upper(c) || Lower(c) || Digit(c) }

  function ToLower(c: char): char {
    if Upper(c) then c + ('a' - 'A') else c
  }

  // ---- The passes of the transformation -----------------------------------------------------

  /** Between two capitals of which the second starts a capitalised word. */
  predicate AcronymBoundary(s: string, i: nat) {
    0 < i && i + 1 < |s| && Upper(s[i - 1]) && Upper(s[i]) && Lower(s[i + 1])
  }

  /** Between a lower-case letter or digit and a capital. */
  predicate CamelBoundary(s: string, i: nat) {
    0 < i < |s| && (Lower(s[i - 1]) || Digit(s[i - 1])) && Upper(s[i])
  }

  function SplitAcronyms(s: string, n: nat := |s|): string
    requires n <= |s|
  {
    if n == 0 then ""
    else SplitAcronyms(s, n - 1) + (if AcronymBoundary(s, n - 1) then "_" else "") + [s[n - 1]]
  }

  function SplitCamel(s: string, n: nat := |s|): string
    requires n <= |s|
  {
    if n == 0 then ""
    else SplitCamel(s, n - 1) + (if CamelBoundary(s, n - 1) then "_" else "") + [s[n - 1]]
  }

  /** Every maximal run of other characters becomes one underscore. */
  function Replace(s: string, n: nat := |s|): string
    requires n <= |s|
  {
    if n == 0 then ""
    else if Alnum(s[n - 1]) then Replace(s, n - 1) + [s[n - 1]]
    else if n >= 2 && !Alnum(s[n - 2]) then Replace(s, n - 1)
    else Replace(s, n - 1) + "_"
  }

  function StripLeft(s: string): string {
    if s != "" && s[0] == '_' then StripLeft(s[1..]) else s
  }

  function StripRight(s: string): string {
    if s != "" && s[|s| - 1] == '_' then StripRight(s[..|s| - 1]) else s
  }

  function LowerCase(s: string): (r: string)
    ensures |r| == |s|
  {
    seq(|s|, i requires 0 <= i < |s| => ToLower(s[i]))
  }

  /** Every run of underscores becomes one. */
  function Squeeze(s: string, n: nat := |s|): string
    requires n <= |s|
  {
    if n == 0 then ""
    else if n >= 2 && s[n - 1] == '_' && s[n - 2] == '_' then Squeeze(s, n - 1)
    else Squeeze(s, n - 1) + [s[n - 1]]
  }

  /** The name before the underscores are squeezed. */
  function Cleaned(text: string): string {
    LowerCase(StripRight(StripLeft(Replace(SplitCamel(SplitAcronyms(text))))))
  }

  function Identifier(text: string): string {
    var squeezed := Squeeze(Cleaned(text));
    var name := if squeezed == "" then "field" else squeezed;
    if Digit(name[0]) then "f_" + name else name
  }

  // ---- The grammar --------------------------------------------------------------------------

  predicate NameChar(c: char) { Lower(c) || Digit(c) || c == '_' }

  predicate NoDouble(s: string) {
    forall i :: 0 <= i < |s| - 1 ==> s[i] != '_' || s[i + 1] != '_'
  }

  /** `[a-z0-9]+(_[a-z0-9]+)*`, or empty. */
  predicate IsTail(s: string) {
    && (forall i :: 0 <= i < |s| ==> NameChar(s[i]))
    && NoDouble(s) && (s != "" ==> s[0] != '_' && s[|s| - 1] != '_')
  }

  /** `[a-z][a-z0-9]*(_[a-z0-9]+)*`. */
  predicate IsIdentifier(s: string) {
    s != "" && Lower(s[0]) && IsTail(s)
  }

  /** The letters and digits of a text, lower-cased. */
  function Core(s: string, n: nat := |s|): string
    requires n <= |s|
  {
    if n == 0 then ""
    else Core(s, n - 1) + if Alnum(s[n - 1]) then [ToLower(s[n - 1])] else ""
  }

  // ---- Every pass keeps the core ------------------------------------------------------------

  lemma {:induction false} CoreConcat(s: string, t: string, n: nat)
    requires n <= |t|
    ensures Core(s + t, |s| + n) == Core(s, |s|) + Core(t, n)
  {
    if n == 0 {
      CorePrefix(s, t, |s|);
    } else {
      CoreConcat(s, t, n - 1);
      assert (s + t)[|s| + n - 1] == t[n - 1];
    }
  }

  lemma {:induction false} CorePrefix(s: string, t: string, n: nat)
    requires n <= |s|
    ensures Core(s + t, n) == Core(s, n)
  {
    if n > 0 {
      CorePrefix(s, t, n - 1);
    }
  }

  lemma {:induction false} CoreSnoc(s: string, c: char)
    ensures Core(s + [c]) == Core(s) + if Alnum(c) then [ToLower(c)] else ""
  {
    CoreConcat(s, [c], 1);
    assert Core([c], 0) == "";
  }

  lemma {:induction false} AcronymsKeepCore(s: string, n: nat)
    requires n <= |s|
    ensures Core(SplitAcronyms(s, n)) == Core(s, n)
  {
    if n > 0 {
      AcronymsKeepCore(s, n - 1);
      var before := SplitAcronyms(s, n - 1);
      CoreSnoc(before, '_');
      CoreSnoc(before + (if AcronymBoundary(s, n - 1) then "_" else ""), s[n - 1]);
      assert before + "" == before;
    }
  }

  lemma {:induction false} CamelKeepsCore(s: string, n: nat)
    requires n <= |s|
    ensures Core(SplitCamel(s, n)) == Core(s, n)
  {
    if n > 0 {
      CamelKeepsCore(s, n - 1);
      var before := SplitCamel(s, n - 1);
      CoreSnoc(before, '_');
      CoreSnoc(before + (if CamelBoundary(s, n - 1) then "_" else ""), s[n - 1]);
      assert before + "" == before;
    }
  }

  lemma {:induction false} ReplaceKeepsCore(s: string, n: nat)
    requires n <= |s|
    ensures Core(Replace(s, n)) == Core(s, n)
  {
    if n > 0 {
      ReplaceKeepsCore(s, n - 1);
      CoreSnoc(Replace(s, n - 1), s[n - 1]);
      CoreSnoc(Replace(s, n - 1), '_');
    }
  }

  lemma {:induction false} StripLeftKeepsCore(s: string)
    ensures Core(StripLeft(s)) == Core(s)
  {
    if s != "" && s[0] == '_' {
      StripLeftKeepsCore(s[1..]);
      assert s == ['_'] + s[1..];
      CoreConcat(['_'], s[1..], |s| - 1);
      CoreSnoc([], '_');
      assert [] + ['_'] == ['_'];
    }
  }

  lemma {:induction false} StripRightKeepsCore(s: string)
    ensures Core(StripRight(s)) == Core(s)
  {
    if s != "" && s[|s| - 1] == '_' {
      StripRightKeepsCore(s[..|s| - 1]);
      CoreSnoc(s[..|s| - 1], '_');
      assert s == s[..|s| - 1] + ['_'];
    }
  }

  lemma {:induction false} LowerCaseKeepsCore(s: string, n: nat)
    requires n <= |s|
    ensures Core(LowerCase(s), n) == Core(s, n)
  {
    if n > 0 {
      LowerCaseKeepsCore(s, n - 1);
    }
  }

  // ---- The shape after each pass ------------------------------------------------------------

  lemma {:induction false} ReplacedShape(s: string, n: nat)
    requires n <= |s|
    ensures var r := Replace(s, n);
            && (forall i :: 0 <= i < |r| ==> Alnum(r[i]) || r[i] == '_') && NoDouble(r)
            && (n > 0 ==> r != "" && (r[|r| - 1] == '_' <==> !Alnum(s[n - 1])))
  {
    if n > 0 {
      ReplacedShape(s, n - 1);
    }
  }

  predicate Clean(s: string) {
    (forall i :: 0 <= i < |s| ==> Alnum(s[i]) || s[i] == '_') && NoDouble(s)
  }

  lemma {:induction false} StripLeftShape(s: string)
    requires Clean(s)
    ensures Clean(StripLeft(s)) && (StripLeft(s) != "" ==> StripLeft(s)[0] != '_')
  {
    if s != "" && s[0] == '_' {
      StripLeftShape(s[1..]);
    }
  }

  lemma {:induction false} StripRightShape(s: string)
    requires Clean(s)
    ensures var r := StripRight(s);
            Clean(r) && r <= s && (r != "" ==> r[|r| - 1] != '_')
  {
    if s != "" && s[|s| - 1] == '_' {
      StripRightShape(s[..|s| - 1]);
    }
  }

  /** The squeezing pass has nothing left to do. */
  lemma {:induction false} SqueezeIsNoOp(s: string, n: nat)
    requires NoDouble(s) && n <= |s|
    ensures Squeeze(s, n) == s[..n]
  {
    if n > 0 {
      SqueezeIsNoOp(s, n - 1);
      assert n >= 2 ==> s[n - 2] != '_' || s[n - 2 + 1] != '_';
      assert s[..n] == s[..n - 1] + [s[n - 1]];
    }
  }

  lemma {:induction false} CleanedShape(text: string)
    ensures IsTail(Cleaned(text)) && Squeeze(Cleaned(text)) == Cleaned(text)
  {
    var c := SplitCamel(SplitAcronyms(text));
    ReplacedShape(c, |c|);
    StripLeftShape(Replace(c));
    StripRightShape(StripLeft(Replace(c)));
    SqueezeIsNoOp(Cleaned(text), |Cleaned(text)|);
    assert Cleaned(text)[..|Cleaned(text)|] == Cleaned(text);
  }

  lemma {:induction false} CleanedKeepsCore(text: string)
    ensures Core(Cleaned(text)) == Core(text)
  {
    var a := SplitAcronyms(text);
    var c := SplitCamel(a);
    var r := Replace(c);
    var s := StripRight(StripLeft(r));
    AcronymsKeepCore(text, |text|);
    CamelKeepsCore(a, |a|);
    ReplaceKeepsCore(c, |c|);
    StripLeftKeepsCore(r);
    StripRightKeepsCore(StripLeft(r));
    LowerCaseKeepsCore(s, |s|);
  }

  /** Every text, whatever its characters, becomes an identifier of the grammar. */
  lemma {:induction false} IdentifierIsWellFormed(text: string)
    ensures IsIdentifier(Identifier(text))
  {
    CleanedShape(text);
    if Cleaned(text) != "" && Digit(Cleaned(text)[0]) {
      PrefixedShape(Cleaned(text));
    }
  }

  lemma {:induction false} PrefixedShape(name: string)
    requires IsTail(name) && name != "" && Digit(name[0])
    ensures IsIdentifier("f_" + name)
  {
    var r := "f_" + name;
    forall i | 0 <= i < |r| - 1
      ensures r[i] != '_' || r[i + 1] != '_'
    {
      if i >= 2 {
        assert name[i - 2] != '_' || name[i - 2 + 1] != '_';
      }
    }
  }

  /**
   * The letters and digits of the text survive in order, lower-cased; only the fallback for an
   * empty name and the prefix for a leading digit add any.
   */
  lemma {:induction false} IdentifierKeepsCore(text: string)
    ensures var core := Core(text);
            Core(Identifier(text)) ==
            if core == "" then "field" else if Digit(core[0]) then "f" + core else core
  {
    CleanedShape(text);
    CleanedKeepsCore(text);
    var name := Cleaned(text);
    if name == "" {
      FieldCore();
    } else {
      FirstOfCore(name, |name|);
      if Digit(name[0]) {
        CoreConcat("f_", name, |name|);
        PrefixCore();
      }
    }
  }

  lemma {:induction false} FieldCore()
    ensures Core("") == "" && Core("field") == "field"
  {
    var f := "field";
    assert Core(f, 1) == "f" && Core(f, 2) == "fi";
    assert Core(f, 3) == "fie" && Core(f, 4) == "fiel";
  }

  lemma {:induction false} PrefixCore()
    ensures Core("f_") == "f"
  {
    var f := "f_";
    assert Core(f, 1) == "f";
  }

  /** The core starts with the first character of a tail. */
  lemma {:induction false} FirstOfCore(s: string, n: nat)
    requires IsTail(s) && 0 < n <= |s|
    ensures Core(s, n) != "" && Core(s, n)[0] == s[0]
  {
    if n > 1 {
      FirstOfCore(s, n - 1);
    } else {
      assert Core(s, 0) == "";
    }
  }

  /** The core of an identifier is the identifier without its underscores. */
  function WithoutUnderscores(s: string, n: nat := |s|): string
    requires n <= |s|
  {
    if n == 0 then ""
    else WithoutUnderscores(s, n - 1) + if s[n - 1] == '_' then "" else [s[n - 1]]
  }

  lemma {:induction false} CoreOfTail(s: string, n: nat)
    requires IsTail(s) && n <= |s|
    ensures Core(s, n) == WithoutUnderscores(s, n)
  {
    if n > 0 {
      CoreOfTail(s, n - 1);
    }
  }

  // ---- Idempotence --------------------------------------------------------------------------

  lemma {:induction false} AcronymsNoOp(s: string, n: nat)
    requires n <= |s| && forall i :: 0 <= i < |s| ==> NameChar(s[i])
    ensures SplitAcronyms(s, n) == s[..n]
  {
    if n > 0 {
      AcronymsNoOp(s, n - 1);
      assert s[..n] == s[..n - 1] + [s[n - 1]];
    }
  }

  lemma {:induction false} CamelNoOp(s: string, n: nat)
    requires n <= |s| && forall i :: 0 <= i < |s| ==> NameChar(s[i])
    ensures SplitCamel(s, n) == s[..n]
  {
    if n > 0 {
      CamelNoOp(s, n - 1);
      assert s[..n] == s[..n - 1] + [s[n - 1]];
    }
  }

  lemma {:induction false} ReplaceNoOp(s: string, n: nat)
    requires n <= |s| && NoDouble(s) && forall i :: 0 <= i < |s| ==> NameChar(s[i])
    ensures Replace(s, n) == s[..n]
  {
    if n > 0 {
      ReplaceNoOp(s, n - 1);
      assert n >= 2 ==> s[n - 2] != '_' || s[n - 2 + 1] != '_';
      assert s[..n] == s[..n - 1] + [s[n - 1]];
    }
  }

  /** An identifier of the grammar is left as it is. */
  lemma {:induction false} IdentifierFixes(s: string)
    requires IsIdentifier(s)
    ensures Identifier(s) == s
  {
    AcronymsNoOp(s, |s|);
    CamelNoOp(s, |s|);
    ReplaceNoOp(s, |s|);
    SqueezeIsNoOp(s, |s|);
    assert s[..|s|] == s;
    assert LowerCase(s) == s;
  }

  lemma {:induction false} IdentifierIsIdempotent(text: string)
    ensures Identifier(Identifier(text)) == Identifier(text)
  {
    IdentifierIsWellFormed(text);
    IdentifierFixes(Identifier(text));
  }

  /** What is left of a name is decided by its letters and digits, up to where words are split. */
  lemma {:induction false} NameSpellsText(text: string)
    requires Core(text) != "" && !Digit(Core(text)[0])
    ensures WithoutUnderscores(Identifier(text)) == Core(text)
  {
    IdentifierIsWellFormed(text);
    IdentifierKeepsCore(text);
    CoreOfTail(Identifier(text), |Identifier(text)|);
  }
}
