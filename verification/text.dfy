/**
  Text handling used by the mesh-text parser: the ECMAScript notion of
  white space, `String.prototype.trim`, and splitting a trimmed line on runs
  of white space (`split(/\s+/g)`).
 */
module Text {

  /** ECMAScript WhiteSpace and LineTerminator code points; both `trim()` and
      the regular-expression class `\s` use exactly this set. */
  predicate IsSpace(c: char) {
    || c == ' ' || c == '\t' || c == '\n' || c == '\r'
    || c == '\U{000B}' || c == '\U{000C}' || c == '\U{00A0}' || c == '\U{FEFF}'
    || c == '\U{1680}' || ('\U{2000}' <= c <= '\U{200A}')
    || c == '\U{2028}' || c == '\U{2029}' || c == '\U{202F}'
    || c == '\U{205F}' || c == '\U{3000}'
  }

  /** A string that holds no white space at all. */
  predicate NoSpace(s: string) {
    forall i :: 0 <= i < |s| ==> !IsSpace(s[i])
  }

  /** A string made of white space only (possibly empty). */
  predicate AllSpace(s: string) {
    forall i :: 0 <= i < |s| ==> IsSpace(s[i])
  }

  /** A list of words: each non-empty and free of white space. */
  predicate ValidWords(ws: seq<string>) {
    forall k :: 0 <= k < |ws| ==> ws[k] != [] && NoSpace(ws[k])
  }

  /** Removes the leading white space. */
  function TrimStart(s: string): (r: string)
    ensures |r| <= |s| && r == s[|s| - |r|..]
    ensures forall i :: 0 <= i < |s| - |r| ==> IsSpace(s[i])
    ensures r == [] || !IsSpace(r[0])
  {
    if s == [] || !IsSpace(s[0]) then s else TrimStart(s[1..])
  }

  /** Removes the trailing white space. */
  function TrimEnd(s: string): (r: string)
    ensures |r| <= |s| && r == s[..|r|]
    ensures forall i :: |r| <= i < |s| ==> IsSpace(s[i])
    ensures r == [] || !IsSpace(r[|r| - 1])
  {
    if s == [] || !IsSpace(s[|s| - 1]) then s else TrimEnd(s[..|s| - 1])
  }

  /** Trimming the end of a suffix of `s` leaves a slice of `s` that ends on a
      non-space character, followed in `s` only by white space. */
  lemma TrimEndOfSuffix(s: string, a: nat)
    requires a <= |s|
    ensures var r := TrimEnd(s[a..]);
            && r == s[a..][..|r|]
            && (forall i :: a + |r| <= i < |s| ==> IsSpace(s[i]))
            && (r != [] ==> s[a] == r[0] && !IsSpace(s[a + |r| - 1]))
  {
    var t := s[a..];
    var r := TrimEnd(t);
    forall i | a + |r| <= i < |s|
      ensures IsSpace(s[i])
    {
      assert s[i] == t[i - a];
    }
    if r != [] {
      assert s[a] == t[0] == r[0];
      assert s[a + |r| - 1] == t[|r| - 1] == r[|r| - 1];
    }
  }

  /** `String.prototype.trim`: the result is the slice of `s` between its
      leading and its trailing white space. */
  function Trim(s: string): (r: string)
    ensures var a := |s| - |TrimStart(s)|;
              && 0 <= a <= |s| - |r| && r == s[a..][..|r|]
              && (forall i :: 0 <= i < a ==> IsSpace(s[i]))
              && (forall i :: a + |r| <= i < |s| ==> IsSpace(s[i]))
              && (r != [] ==> !IsSpace(s[a]) && !IsSpace(s[a + |r| - 1]))
  {
    var t := TrimStart(s);
    var a := |s| - |t|;
    assert t == s[a..];
    TrimEndOfSuffix(s, a);
    var r := TrimEnd(t);
    assert r != [] ==> !IsSpace(t[0]) && r[0] == t[0];
    r
  }

  /** Trimming a string that neither starts nor ends with white space leaves it as it is. */
  lemma TrimUnchanged(s: string)
    requires s == [] || (!IsSpace(s[0]) && !IsSpace(s[|s| - 1]))
    ensures Trim(s) == s
  {
  }

  /** Trimming twice is trimming once. */
  lemma TrimIdempotent(s: string)
    ensures Trim(Trim(s)) == Trim(s)
  {
    TrimUnchanged(Trim(s));
  }

  /** The longest prefix of `s` without white space. */
  function LeadingWord(s: string): (w: string)
    ensures |w| <= |s| && w == s[..|w|] && NoSpace(w)
    ensures |w| < |s| ==> IsSpace(s[|w|])
    ensures NoSpace(s) ==> w == s
  {
    if s == [] || IsSpace(s[0]) then [] else [s[0]] + LeadingWord(s[1..])
  }

  /** The maximal runs of non-space characters of `s`, in order. On a trimmed,
      non-empty line this is what `split(/\s+/g)` returns. */
  function Words(s: string): (ws: seq<string>)
    ensures ValidWords(ws)
    ensures s != [] && !IsSpace(s[0]) ==> |ws| > 0 && ws[0] == LeadingWord(s)
    ensures NoSpace(s) && s != [] ==> ws == [s]
    decreases |s|
  {
    if s == [] then []
    else if IsSpace(s[0]) then Words(s[1..])
    else
      var w := LeadingWord(s);
      [w] + Words(s[|w|..])
  }

  /** The words of `ws` separated by single spaces. */
  function JoinWords(ws: seq<string>): string
  {
    if ws == [] then []
    else if |ws| == 1 then ws[0]
    else ws[0] + " " + JoinWords(ws[1..])
  }

  lemma {:induction false} LeadingWordOfJoin(w: string, rest: string)
    requires w != [] && NoSpace(w)
    requires rest == [] || IsSpace(rest[0])
    ensures LeadingWord(w + rest) == w
    decreases |w|
  {
    if |w| > 1 {
      assert (w + rest)[1..] == w[1..] + rest;
      LeadingWordOfJoin(w[1..], rest);
    } else {
      assert (w + rest)[1..] == rest;
    }
  }

  /** White space in front of the text is skipped by the split. */
  lemma {:induction false} WordsSkipsSpace(sp: string, rest: string)
    requires AllSpace(sp)
    ensures Words(sp + rest) == Words(rest)
    decreases |sp|
  {
    if sp != [] {
      assert (sp + rest)[1..] == sp[1..] + rest;
      WordsSkipsSpace(sp[1..], rest);
    } else {
      assert sp + rest == rest;
    }
  }

  /** A word followed by white space is split off as the first word, and the
      split goes on after the white space. */
  lemma WordThenSpace(w: string, sp: string, rest: string)
    requires w != [] && NoSpace(w) && sp != [] && AllSpace(sp)
    ensures Words(w + sp + rest) == [w] + Words(rest)
  {
    var s := w + sp + rest;
    assert s == w + (sp + rest);
    LeadingWordOfJoin(w, sp + rest);
    assert s[|w|..] == sp + rest;
    WordsSkipsSpace(sp, rest);
  }

  /** A run of white space holds no words. */
  lemma WordsOfSpace(sp: string)
    requires AllSpace(sp)
    ensures Words(sp) == []
  {
    WordsSkipsSpace(sp, []);
    assert sp + [] == sp;
  }

  /** The runs of white space `seps` are non-empty. */
  predicate Separators(seps: seq<string>) {
    forall k :: 0 <= k < |seps| ==> seps[k] != [] && AllSpace(seps[k])
  }

  /** The words of `ws` with `seps[k]` between `ws[k]` and `ws[k + 1]`. */
  function JoinWith(ws: seq<string>, seps: seq<string>): string
    requires |seps| + 1 == |ws|
    decreases |ws|
  {
    if |ws| == 1 then ws[0] else ws[0] + seps[0] + JoinWith(ws[1..], seps[1..])
  }

  /** Splitting words joined by runs of white space gives back the words. */
  lemma {:induction false} WordsOfJoinWith(ws: seq<string>, seps: seq<string>)
    requires ValidWords(ws) && Separators(seps) && |seps| + 1 == |ws|
    ensures Words(JoinWith(ws, seps)) == ws
    decreases |ws|
  {
    if |ws| > 1 {
      var rest := JoinWith(ws[1..], seps[1..]);
      assert JoinWith(ws, seps) == ws[0] + seps[0] + rest;
      assert ValidWords(ws[1..]) && Separators(seps[1..]);
      WordThenSpace(ws[0], seps[0], rest);
      WordsOfJoinWith(ws[1..], seps[1..]);
      assert ws == [ws[0]] + ws[1..];
    }
  }

  /** Words joined by runs of white space start with the first word's first
      character and end with a character that is not white space. */
  lemma {:induction false} JoinWithEdges(ws: seq<string>, seps: seq<string>)
    requires ValidWords(ws) && |seps| + 1 == |ws|
    ensures JoinWith(ws, seps) != [] && JoinWith(ws, seps)[0] == ws[0][0]
    ensures !IsSpace(JoinWith(ws, seps)[|JoinWith(ws, seps)| - 1])
    decreases |ws|
  {
    if |ws| > 1 {
      JoinWithEdges(ws[1..], seps[1..]);
      var t := JoinWith(ws[1..], seps[1..]);
      assert JoinWith(ws, seps) == ws[0] + seps[0] + t;
      assert JoinWith(ws, seps)[|JoinWith(ws, seps)| - 1] == t[|t| - 1];
    } else {
      assert !IsSpace(ws[0][|ws[0]| - 1]);
    }
  }

  /** Leading white space in front of text that starts with a non-space
      character is all `TrimStart` removes. */
  lemma {:induction false} TrimStartPadded(pre: string, rest: string)
    requires AllSpace(pre) && rest != [] && !IsSpace(rest[0])
    ensures TrimStart(pre + rest) == rest
    decreases |pre|
  {
    if pre != [] {
      assert (pre + rest)[0] == pre[0];
      assert (pre + rest)[1..] == pre[1..] + rest;
      TrimStartPadded(pre[1..], rest);
    } else {
      assert pre + rest == rest;
    }
  }

  /** Trailing white space after text that ends with a non-space character
      is all `TrimEnd` removes. */
  lemma {:induction false} TrimEndPadded(rest: string, post: string)
    requires AllSpace(post) && rest != [] && !IsSpace(rest[|rest| - 1])
    ensures TrimEnd(rest + post) == rest
    decreases |post|
  {
    if post != [] {
      var p := post[..|post| - 1];
      assert (rest + post)[..|rest + post| - 1] == rest + p;
      TrimEndPadded(rest, p);
    } else {
      assert rest + post == rest;
    }
  }

  /** Trimming text padded with white space on both sides gives back the
      text, when the text neither starts nor ends with white space. */
  lemma TrimPadded(pre: string, body: string, post: string)
    requires AllSpace(pre) && AllSpace(post)
    requires body != [] && !IsSpace(body[0]) && !IsSpace(body[|body| - 1])
    ensures Trim(pre + body + post) == body
  {
    assert pre + body + post == pre + (body + post);
    assert (body + post)[0] == body[0];
    TrimStartPadded(pre, body + post);
    TrimEndPadded(body, post);
  }

  /** A line holding the words `ws`: any white space, the words separated by
      non-empty runs of white space, any white space. */
  function Spell(pre: string, ws: seq<string>, seps: seq<string>, post: string): string
    requires |seps| + 1 == |ws|
  {
    pre + JoinWith(ws, seps) + post
  }

  /** White-space padding and separators such a line may use. */
  predicate Layout(pre: string, seps: seq<string>, post: string) {
    AllSpace(pre) && Separators(seps) && AllSpace(post)
  }

  /** Trimming such a line leaves the words with their separators, and
      splitting that gives back the words. */
  lemma TrimWordsOfSpell(pre: string, ws: seq<string>, seps: seq<string>, post: string)
    requires ValidWords(ws) && Layout(pre, seps, post) && |seps| + 1 == |ws|
    ensures Trim(Spell(pre, ws, seps, post)) == JoinWith(ws, seps)
    ensures Words(Trim(Spell(pre, ws, seps, post))) == ws
  {
    JoinWithEdges(ws, seps);
    TrimPadded(pre, JoinWith(ws, seps), post);
    WordsOfJoinWith(ws, seps);
  }

  /** `n` single spaces, as separators. */
  function Spaces(n: nat): (seps: seq<string>)
    ensures |seps| == n && Separators(seps)
  {
    seq(n, _ => " ")
  }

  /** Joining with single spaces is the special case of joining with runs of
      white space in which every run is one space. */
  lemma {:induction false} JoinWordsIsSpell(ws: seq<string>)
    requires ws != []
    ensures JoinWords(ws) == Spell([], ws, Spaces(|ws| - 1), [])
    decreases |ws|
  {
    if |ws| > 1 {
      JoinWordsIsSpell(ws[1..]);
      assert Spaces(|ws| - 1)[1..] == Spaces(|ws| - 2);
    }
  }
}
