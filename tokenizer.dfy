/** How CommandParser turns one trimmed line into a command name and its
    parameters: the line is split on single spaces, the second field is split
    on commas, and getParameters picks at most three candidates from the
    fields, trims them and drops the empty ones. */
module Tokenizer {
  import opened TextUtil

  /** getParameters before the clean-up: the first comma field of parts[1];
      then parts[2], only when the line has exactly three space-separated
      fields; then the second comma field, only when parts[1] has exactly two. */
  function Candidates(parts: seq<string>): (c: seq<string>)
    ensures |c| <= 3
  {
    var raw := if |parts| > 1 then Split(parts[1], {','}) else [];
    (if |raw| > 0 then [raw[0]] else [])
    + (if |parts| == 3 then [parts[2]] else [])
    + (if |raw| == 2 then [raw[1]] else [])
  }

  /** Select(p => p.Trim()).Where(p => !string.IsNullOrEmpty(p)): trims every
      candidate and keeps the non-empty ones, in order. */
  function KeepTrimmed(c: seq<string>): (r: seq<string>)
    ensures |r| <= |c|
    ensures forall i :: 0 <= i < |r| ==> r[i] != [] && IsTrimmed(r[i])
  {
    if c == [] then []
    else
      var t := Trim(c[0]);
      (if t == [] then [] else [t]) + KeepTrimmed(c[1..])
  }

  /** getParameters: at most three parameters, each trimmed and non-empty. */
  function GetParameters(parts: seq<string>): (r: seq<string>)
    ensures |r| <= 3
    ensures forall i :: 0 <= i < |r| ==> r[i] != [] && IsTrimmed(r[i])
  {
    KeepTrimmed(Candidates(parts))
  }

  datatype Tokens = Tokens(name: string, parameters: seq<string>)

  /** The lower-cased command name and the parameters of a trimmed line. */
  function Tokenize(clean: string): Tokens {
    var parts := Split(clean, {' '});
    Tokens(ToLower(parts[0]), GetParameters(parts))
  }

  /** A field made of letters, digits and signs: a command name, a colour,
      the text of a number. It holds no white space and no comma. */
  predicate IsWord(w: string) {
    w != [] && forall i :: 0 <= i < |w| ==> IsWordChar(w[i])
  }

  predicate IsWordChar(c: char) {
    IsDigit(c) || 'a' <= c <= 'z' || 'A' <= c <= 'Z' || c == '-' || c == '+'
  }

  lemma {:induction false} WordFacts(w: string)
    requires IsWord(w)
    ensures SepFree(w, {' '}) && SepFree(w, {','}) && IsTrimmed(w)
  {
  }

  /** A line that starts with a word and ends with a word is already trimmed. */
  lemma {:induction false} WordEnds(line: string, first: string, last: string)
    requires IsWord(first) && IsWord(last)
    requires |first| <= |line| && line[..|first|] == first
    requires |last| <= |line| && line[|line| - |last|..] == last
    ensures IsTrimmed(line) && Trim(line) == line
  {
    assert line[0] == first[0];
    assert line[|line| - 1] == last[|last| - 1];
    TrimUntouched(line);
  }

  /** Words joined by one non-space character hold no space. */
  lemma {:induction false} JoinedWords(a: string, c: char, b: string)
    requires IsWord(a) && IsWord(b) && c != ' '
    ensures SepFree(a + [c] + b, {' '})
  {
    var l := a + [c] + b;
    forall i | 0 <= i < |l| ensures l[i] != ' ' {
      if i < |a| { assert l[i] == a[i]; }
      else if i > |a| { assert l[i] == b[i - |a| - 1]; }
    }
  }

  /** Candidates that are already trimmed and non-empty are kept as they are. */
  lemma {:induction false} KeepWords(c: seq<string>)
    requires forall i :: 0 <= i < |c| ==> IsWord(c[i])
    ensures KeepTrimmed(c) == c
  {
    if c != [] {
      WordFacts(c[0]);
      TrimUntouched(c[0]);
      KeepWords(c[1..]);
      assert [c[0]] + c[1..] == c;
    }
  }

  /** Tokenize, once the line's space-separated fields and its parameters are known. */
  lemma TokenizeOf(line: string, parts: seq<string>, p: seq<string>)
    requires Split(line, {' '}) == parts && GetParameters(parts) == p
    ensures Tokenize(line) == Tokens(ToLower(parts[0]), p)
  {
  }

  /** `name` alone: no parameters. */
  lemma {:induction false} TokenizeNoParameters(name: string)
    requires IsWord(name)
    ensures Trim(name) == name
    ensures Tokenize(name) == Tokens(ToLower(name), [])
  {
    WordFacts(name);
    TrimUntouched(name);
    SplitSepFree(name, {' '});
    assert GetParameters([name]) == [];
    TokenizeOf(name, [name], []);
  }

  /** `name a`: one parameter. */
  lemma {:induction false} TokenizeOneParameter(name: string, a: string)
    requires IsWord(name) && IsWord(a)
    ensures var line := name + " " + a;
      Trim(line) == line && Tokenize(line) == Tokens(ToLower(name), [a])
  {
    var line := name + " " + a;
    SplitTwo(name, a);
    OneCandidate([name, a], a);
    TokenizeOf(line, [name, a], [a]);
    WordEnds(line, name, a);
  }

  lemma SplitTwo(name: string, a: string)
    requires IsWord(name) && SepFree(a, {' '})
    ensures Split(name + " " + a, {' '}) == [name, a]
  {
    WordFacts(name);
    assert name + " " + a == name + [' '] + a;
    SplitAfterPiece(name, ' ', a, {' '});
    SplitSepFree(a, {' '});
  }

  lemma SplitThree(name: string, a: string, b: string)
    requires IsWord(name) && SepFree(a, {' '}) && IsWord(b)
    ensures Split(name + " " + a + " " + b, {' '}) == [name, a, b]
  {
    WordFacts(name);
    WordFacts(b);
    assert name + " " + a + " " + b == name + [' '] + (a + [' '] + b);
    SplitAfterPiece(name, ' ', a + [' '] + b, {' '});
    SplitAfterPiece(a, ' ', b, {' '});
    SplitSepFree(b, {' '});
  }

  /** Fields whose first comma field is a word and that have no second one
      leave that word as the only candidate. */
  lemma OneCandidate(parts: seq<string>, a: string)
    requires |parts| == 2 || |parts| > 3
    requires parts[1] == a && IsWord(a)
    ensures GetParameters(parts) == [a]
  {
    WordFacts(a);
    SplitSepFree(a, {','});
    assert Candidates(parts) == [a];
    KeepWords([a]);
  }

  /** `name a,b`: two parameters, in order. */
  lemma {:induction false} TokenizeComma(name: string, a: string, b: string)
    requires IsWord(name) && IsWord(a) && IsWord(b)
    ensures var line := name + " " + a + "," + b;
      Trim(line) == line && Tokenize(line) == Tokens(ToLower(name), [a, b])
  {
    var line := name + " " + a + "," + b;
    var field := a + [','] + b;
    JoinedWords(a, ',', b);
    assert line == name + " " + field;
    SplitTwo(name, field);
    CommaParameters([name, field], a, b);
    TokenizeOf(line, [name, field], [a, b]);
    WordEnds(line, name, b);
  }

  /** The field a,b alone gives the parameters a and b. */
  lemma CommaParameters(parts: seq<string>, a: string, b: string)
    requires |parts| == 2 && parts[1] == a + [','] + b && IsWord(a) && IsWord(b)
    ensures GetParameters(parts) == [a, b]
  {
    CommaCandidates(a, b);
    assert Candidates(parts) == [a, b];
    KeepWords([a, b]);
  }

  /** Two words joined by a comma are split back into those two words. */
  lemma CommaCandidates(a: string, b: string)
    requires IsWord(a) && IsWord(b)
    ensures Split(a + [','] + b, {','}) == [a, b]
  {
    WordFacts(a);
    WordFacts(b);
    SplitAfterPiece(a, ',', b, {','});
    SplitSepFree(b, {','});
  }

  /** `name a, b`: the comma leaves an empty field, which is dropped, and the
      third space-separated field becomes the second parameter. */
  lemma {:induction false} TokenizeCommaSpace(name: string, a: string, b: string)
    requires IsWord(name) && IsWord(a) && IsWord(b)
    ensures var line := name + " " + a + ", " + b;
      Trim(line) == line && Tokenize(line) == Tokens(ToLower(name), [a, b])
  {
    var line := name + " " + a + ", " + b;
    var first := a + [','];
    assert SepFree(first, {' '}) by {
      WordFacts(a);
      assert forall i :: 0 <= i < |a| ==> first[i] == a[i];
    }
    assert line == name + " " + first + " " + b;
    SplitThree(name, first, b);
    TrailingCommaParameters(name, a, b);
    TokenizeOf(line, [name, first, b], [a, b]);
    WordEnds(line, name, b);
  }

  lemma TrailingCommaParameters(name: string, a: string, b: string)
    requires IsWord(a) && IsWord(b)
    ensures GetParameters([name, a + [','], b]) == [a, b]
  {
    TrailingCommaCandidates(name, a, b);
    KeepWordsThenEmpty(a, b);
  }

  lemma TrailingCommaCandidates(name: string, a: string, b: string)
    requires IsWord(a)
    ensures Candidates([name, a + [','], b]) == [a, b, ""]
  {
    WordFacts(a);
    assert a + [','] == a + [','] + [];
    SplitAfterPiece(a, ',', [], {','});
  }

  lemma KeepWordsThenEmpty(a: string, b: string)
    requires IsWord(a) && IsWord(b)
    ensures KeepTrimmed([a, b, ""]) == [a, b]
  {
    WordFacts(a);
    WordFacts(b);
    TrimUntouched(a);
    TrimUntouched(b);
    assert KeepTrimmed([""]) == [];
    assert [b, ""][1..] == [""];
    assert KeepTrimmed([b, ""]) == [b];
    assert [a, b, ""][1..] == [b, ""];
  }

  /** Two fields without commas are both candidates, in order. */
  lemma TwoCandidates(parts: seq<string>, a: string, b: string)
    requires |parts| == 3 && parts[1] == a && parts[2] == b && IsWord(a) && IsWord(b)
    ensures GetParameters(parts) == [a, b]
  {
    WordFacts(a);
    SplitSepFree(a, {','});
    assert Candidates(parts) == [a, b];
    KeepWords([a, b]);
  }

  /** A comma field a,b followed by a field c: the candidates are a, c, b. */
  lemma ThreeCandidates(parts: seq<string>, a: string, b: string, c: string)
    requires |parts| == 3 && parts[1] == a + [','] + b && parts[2] == c
    requires IsWord(a) && IsWord(b) && IsWord(c)
    ensures GetParameters(parts) == [a, c, b]
  {
    CommaCandidates(a, b);
    assert Candidates(parts) == [a, c, b];
    KeepWords([a, c, b]);
  }

  /** `name a b`: two parameters separated by a space. */
  lemma {:induction false} TokenizeSpace(name: string, a: string, b: string)
    requires IsWord(name) && IsWord(a) && IsWord(b)
    ensures var line := name + " " + a + " " + b;
      Trim(line) == line && Tokenize(line) == Tokens(ToLower(name), [a, b])
  {
    var line := name + " " + a + " " + b;
    WordFacts(a);
    SplitThree(name, a, b);
    TwoCandidates([name, a, b], a, b);
    TokenizeOf(line, [name, a, b], [a, b]);
    WordEnds(line, name, b);
  }

  /** `name a,b c`: the third space-separated field is placed BEFORE the
      second comma field. */
  lemma {:induction false} TokenizeThreeFields(name: string, a: string, b: string, c: string)
    requires IsWord(name) && IsWord(a) && IsWord(b) && IsWord(c)
    ensures var line := name + " " + a + "," + b + " " + c;
      Trim(line) == line && Tokenize(line) == Tokens(ToLower(name), [a, c, b])
  {
    var line := name + " " + a + "," + b + " " + c;
    var field := a + [','] + b;
    JoinedWords(a, ',', b);
    assert line == name + " " + field + " " + c;
    SplitThree(name, field, c);
    ThreeCandidates([name, field, c], a, b, c);
    TokenizeOf(line, [name, field, c], [a, c, b]);
    WordEnds(line, name, c);
  }

  /** `name a b c`: with four space-separated fields parts[2] is not a
      candidate, so only the first field survives. */
  lemma {:induction false} TokenizeFourFields(name: string, a: string, b: string, c: string)
    requires IsWord(name) && IsWord(a) && IsWord(b) && IsWord(c)
    ensures var line := name + " " + a + " " + b + " " + c;
      Trim(line) == line && Tokenize(line) == Tokens(ToLower(name), [a])
  {
    var line := name + " " + a + " " + b + " " + c;
    SplitFour(name, a, b, c);
    OneCandidate([name, a, b, c], a);
    TokenizeOf(line, [name, a, b, c], [a]);
    WordEnds(line, name, c);
  }

  lemma SplitFour(name: string, a: string, b: string, c: string)
    requires IsWord(name) && IsWord(a) && IsWord(b) && IsWord(c)
    ensures Split(name + " " + a + " " + b + " " + c, {' '}) == [name, a, b, c]
  {
    WordFacts(name);
    WordFacts(a);
    var rest := b + " " + c;
    SplitTwo(b, c);
    assert name + " " + a + " " + b + " " + c == name + [' '] + (a + [' '] + rest);
    SplitAfterPiece(name, ' ', a + [' '] + rest, {' '});
    SplitAfterPiece(a, ' ', rest, {' '});
  }
}
