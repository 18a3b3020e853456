/**
 * String helpers the proxy relies on: white-space trimming and comma splitting
 * (Go's strings package), header-name canonicalisation (net/textproto), ASCII
 * lower-casing for boolean settings, and the newline escaping of main.go's trimNL.
 * A `char` stands for one character of a Go string; UTF-8 encoding is not modelled.
 */
module Text {

  // ------------------------------------------------------------------
  // White space and strings.TrimSpace
  // ------------------------------------------------------------------

  /** unicode.IsSpace: the characters with the Unicode White_Space property. */
  predicate IsSpace(c: char) {
    c == ' ' || '\t' <= c <= '\r'
    || c == '\U{0085}' || c == '\U{00A0}' || c == '\U{1680}'
    || '\U{2000}' <= c <= '\U{200A}'
    || c == '\U{2028}' || c == '\U{2029}' || c == '\U{202F}' || c == '\U{205F}' || c == '\U{3000}'
  }

  /** Drops the leading white space of `s`. */
  function TrimLeft(s: string): string {
    if s != [] && IsSpace(s[0]) then TrimLeft(s[1..]) else s
  }

  /** TrimLeft keeps a suffix whose first character is not white space and drops only white space. */
  lemma {:induction false} TrimLeftSpec(s: string)
    ensures |TrimLeft(s)| <= |s| && TrimLeft(s) == s[|s| - |TrimLeft(s)|..]
    ensures forall i :: 0 <= i < |s| - |TrimLeft(s)| ==> IsSpace(s[i])
    ensures TrimLeft(s) != [] ==> !IsSpace(TrimLeft(s)[0])
  {
    if s != [] && IsSpace(s[0]) {
      var t := s[1..];
      TrimLeftSpec(t);
      var r := TrimLeft(t);
      assert TrimLeft(s) == r;
      assert t[|t| - |r|..] == s[|s| - |r|..];
      forall i | 0 <= i < |s| - |r| ensures IsSpace(s[i]) {
        if i > 0 {
          assert s[i] == t[i - 1];
        }
      }
    }
  }

  /** Drops the trailing white space of `s`. */
  function TrimRight(s: string): string {
    if s != [] && IsSpace(s[|s| - 1]) then TrimRight(s[..|s| - 1]) else s
  }

  /** TrimRight keeps a prefix whose last character is not white space and drops only white space. */
  lemma {:induction false} TrimRightSpec(s: string)
    ensures |TrimRight(s)| <= |s| && TrimRight(s) == s[..|TrimRight(s)|]
    ensures forall i :: |TrimRight(s)| <= i < |s| ==> IsSpace(s[i])
    ensures TrimRight(s) != [] ==> !IsSpace(TrimRight(s)[|TrimRight(s)| - 1])
  {
    if s != [] && IsSpace(s[|s| - 1]) {
      var t := s[..|s| - 1];
      TrimRightSpec(t);
      var r := TrimRight(t);
      assert TrimRight(s) == r;
      assert t[..|r|] == s[..|r|];
      forall i | |r| <= i < |s| ensures IsSpace(s[i]) {
        if i < |s| - 1 {
          assert s[i] == t[i];
        }
      }
    }
  }

  /** `r` is the slice s[lo..lo+|r|] and everything around it is white space. */
  ghost predicate TrimmedAt(s: string, r: string, lo: int) {
    && 0 <= lo <= lo + |r| <= |s|
    && r == s[lo..lo + |r|]
    && (forall i :: 0 <= i < lo ==> IsSpace(s[i]))
    && (forall i :: lo + |r| <= i < |s| ==> IsSpace(s[i]))
  }

  /** strings.TrimSpace: `s` without its leading and trailing white space. */
  function TrimSpace(s: string): string {
    TrimRight(TrimLeft(s))
  }

  /**
   * TrimSpace cuts out a slice surrounded only by white space, which neither starts
   * nor ends with white space, and is empty exactly when `s` is all white space.
   */
  lemma TrimSpaceSpec(s: string)
    ensures exists lo :: TrimmedAt(s, TrimSpace(s), lo)
    ensures TrimSpace(s) != [] ==> !IsSpace(TrimSpace(s)[0]) && !IsSpace(TrimSpace(s)[|TrimSpace(s)| - 1])
    ensures TrimSpace(s) == [] <==> forall i :: 0 <= i < |s| ==> IsSpace(s[i])
  {
    var left := TrimLeft(s);
    var r := TrimSpace(s);
    TrimLeftSpec(s);
    TrimRightSpec(left);
    assert TrimmedAt(s, r, |s| - |left|);
    if r == [] {
      assert left == [];
    } else {
      assert r[0] == left[0];
    }
  }

  // ------------------------------------------------------------------
  // strings.Split(s, ",") and its inverse strings.Join(items, ",")
  // ------------------------------------------------------------------

  /** strings.Split(s, ","): the pieces between commas; the empty string gives one empty piece. */
  function Split(s: string): (items: seq<string>)
    ensures |items| >= 1
    ensures forall i :: 0 <= i < |items| ==> ',' !in items[i]
  {
    if s == [] then [[]]
    else
      var rest := Split(s[1..]);
      if s[0] == ',' then [[]] + rest else [[s[0]] + rest[0]] + rest[1..]
  }

  /** strings.Join(items, ","). */
  function Join(items: seq<string>): string
    requires |items| >= 1
    decreases |items|
  {
    if |items| == 1 then items[0] else items[0] + "," + Join(items[1..])
  }

  /** Splitting loses nothing: joining the pieces with commas gives the input back. */
  lemma {:induction false} JoinSplit(s: string)
    ensures Join(Split(s)) == s
  {
    if s != [] {
      var rest := Split(s[1..]);
      JoinSplit(s[1..]);
      if s[0] == ',' {
        assert Split(s) == [[]] + rest;
        assert Join(Split(s)) == [] + "," + Join(rest);
      } else {
        assert Split(s) == [[s[0]] + rest[0]] + rest[1..];
        if |rest| == 1 {
          assert Join(Split(s)) == [s[0]] + rest[0];
        } else {
          assert Join(rest) == rest[0] + "," + Join(rest[1..]);
          assert Join(Split(s)) == [s[0]] + rest[0] + "," + Join(rest[1..]);
        }
      }
    }
  }

  /** A comma-free prefix glues onto the first piece of what follows it. */
  lemma {:induction false} SplitCommaFreePrefix(a: string, t: string)
    requires ',' !in a
    ensures Split(a + t) == [a + Split(t)[0]] + Split(t)[1..]
  {
    if a != [] {
      assert (a + t)[1..] == a[1..] + t;
      SplitCommaFreePrefix(a[1..], t);
      assert [a[0]] + (a[1..] + Split(t)[0]) == a + Split(t)[0];
    } else {
      assert a + t == t;
      assert Split(t) == [Split(t)[0]] + Split(t)[1..];
      assert a + Split(t)[0] == Split(t)[0];
    }
  }

  /** Splitting comma-free pieces joined with commas gives the pieces back. */
  lemma {:induction false} SplitJoin(items: seq<string>)
    requires |items| >= 1
    requires forall i :: 0 <= i < |items| ==> ',' !in items[i]
    ensures Split(Join(items)) == items
    decreases |items|
  {
    if |items| == 1 {
      SplitCommaFreePrefix(items[0], "");
      assert items[0] + "" == items[0];
    } else {
      var tail := Join(items[1..]);
      SplitJoin(items[1..]);
      assert Join(items) == items[0] + ("," + tail);
      SplitCommaFreePrefix(items[0], "," + tail);
      assert ("," + tail)[1..] == tail;
      assert Split("," + tail) == [[]] + items[1..];
      assert items[0] + [] == items[0];
    }
  }

  // ------------------------------------------------------------------
  // http.CanonicalHeaderKey (net/textproto.CanonicalMIMEHeaderKey)
  // ------------------------------------------------------------------

  /** A byte allowed in a header field name (an RFC 7230 token character). */
  predicate IsTokenChar(c: char) {
    'a' <= c <= 'z' || 'A' <= c <= 'Z' || '0' <= c <= '9' || c in TokenSymbols
  }

  /** The punctuation allowed in a token. */
  const TokenSymbols: set<char> := {'!', '#', '$', '%', '&', '\'', '*', '+', '-', '.', '^', '_', '`', '|', '~'}

  /** Every character of s[i..] is a token character. */
  predicate TokenFrom(s: string, i: nat)
    decreases |s| - i
  {
    i >= |s| || (IsTokenChar(s[i]) && TokenFrom(s, i + 1))
  }

  lemma {:induction false} TokenFromAll(s: string, i: nat)
    requires i <= |s|
    ensures TokenFrom(s, i) <==> forall j :: i <= j < |s| ==> IsTokenChar(s[j])
    decreases |s| - i
  {
    if i < |s| {
      TokenFromAll(s, i + 1);
    }
  }

  /** One character of the canonical form: upper case at the start of a word, lower case elsewhere. */
  function FoldChar(c: char, upper: bool): (d: char)
    ensures d == '-' <==> c == '-'
    ensures upper ==> !('a' <= d <= 'z')
    ensures !upper ==> !('A' <= d <= 'Z')
  {
    if upper && 'a' <= c <= 'z' then (c as int - 32) as char
    else if !upper && 'A' <= c <= 'Z' then (c as int + 32) as char
    else c
  }

  /** Changing the case of a character keeps it a token character, and keeps any other character out. */
  lemma FoldCharToken(c: char, upper: bool)
    ensures IsTokenChar(FoldChar(c, upper)) <==> IsTokenChar(c)
  {
  }

  /** The canonical form of s[i..], where `upper` says whether s[i] starts a word. */
  function FoldFrom(s: string, i: nat, upper: bool): (r: string)
    ensures |r| == if i <= |s| then |s| - i else 0
    decreases |s| - i
  {
    if i >= |s| then [] else [FoldChar(s[i], upper)] + FoldFrom(s, i + 1, s[i] == '-')
  }

  /** Whether position j of `s` starts a word: it is first, or follows a '-'. */
  predicate StartsWord(s: string, j: nat)
    requires j < |s|
  {
    j == 0 || s[j - 1] == '-'
  }

  lemma {:induction false} FoldFromAt(s: string, i: nat, upper: bool, j: nat)
    requires i <= j < |s|
    requires i > 0 ==> upper == (s[i - 1] == '-')
    requires i == 0 ==> upper
    ensures FoldFrom(s, i, upper)[j - i] == FoldChar(s[j], StartsWord(s, j))
    decreases j - i
  {
    if j > i {
      FoldFromAt(s, i + 1, s[i] == '-', j);
    }
  }

  /**
   * http.CanonicalHeaderKey: when every character is a token character, the first
   * letter and every letter after a '-' are upper-cased and all other letters are
   * lower-cased; a name holding any other character is returned unchanged.
   */
  function CanonicalHeaderKey(s: string): (r: string)
    ensures |r| == |s|
  {
    if TokenFrom(s, 0) then FoldFrom(s, 0, true) else s
  }

  /** The canonical form of a token name, character by character. */
  lemma CanonicalHeaderKeyAt(s: string, j: nat)
    requires forall i :: 0 <= i < |s| ==> IsTokenChar(s[i])
    requires j < |s|
    ensures CanonicalHeaderKey(s)[j] == FoldChar(s[j], StartsWord(s, j))
  {
    TokenFromAll(s, 0);
    FoldFromAt(s, 0, true, j);
  }

  /** A name holding a character that is not a token character is left as it is. */
  lemma CanonicalHeaderKeyNonToken(s: string, j: nat)
    requires j < |s| && !IsTokenChar(s[j])
    ensures CanonicalHeaderKey(s) == s
  {
    TokenFromAll(s, 0);
  }

  /** Canonicalising a canonical name changes nothing. */
  lemma CanonicalHeaderKeyIdempotent(s: string)
    ensures CanonicalHeaderKey(CanonicalHeaderKey(s)) == CanonicalHeaderKey(s)
  {
    TokenFromAll(s, 0);
    if TokenFrom(s, 0) {
      var t := CanonicalHeaderKey(s);
      forall j | 0 <= j < |t| ensures t[j] == FoldChar(s[j], StartsWord(s, j)) && IsTokenChar(t[j]) {
        CanonicalHeaderKeyAt(s, j);
        FoldCharToken(s[j], StartsWord(s, j));
      }
      var u := CanonicalHeaderKey(t);
      forall j | 0 <= j < |t| ensures u[j] == t[j] {
        CanonicalHeaderKeyAt(t, j);
        assert j > 0 ==> (t[j - 1] == '-' <==> s[j - 1] == '-');
      }
      assert u == t;
    }
  }

  // ------------------------------------------------------------------
  // strings.ToLower, restricted to ASCII letters
  // ------------------------------------------------------------------

  function LowerChar(c: char): (d: char)
    ensures 'A' <= c <= 'Z' ==> d as int == c as int + 32
    ensures !('A' <= c <= 'Z') ==> d == c
  {
    if 'A' <= c <= 'Z' then (c as int + 32) as char else c
  }

  /** strings.ToLower on ASCII letters; every other character is kept. */
  function ToLower(s: string): (r: string)
    ensures |r| == |s|
    ensures forall i :: 0 <= i < |s| ==> r[i] == LowerChar(s[i])
  {
    seq(|s|, i requires 0 <= i < |s| => LowerChar(s[i]))
  }

  // ------------------------------------------------------------------
  // trimNL (main.go): newline escaping for the debug body preview
  // ------------------------------------------------------------------

  /** The number of occurrences of `c` in `s`. */
  function Count(s: string, c: char): nat {
    if s == [] then 0 else (if s[0] == c then 1 else 0) + Count(s[1..], c)
  }

  /** strings.ReplaceAll(s, "\n", "\\n"): each newline becomes a backslash followed by 'n'. */
  function TrimNL(s: string): (r: string)
    ensures '\n' !in r
    ensures |r| == |s| + Count(s, '\n')
  {
    if s == [] then []
    else (if s[0] == '\n' then "\\n" else [s[0]]) + TrimNL(s[1..])
  }

  /** Reads a backslash followed by 'n' back as a newline. */
  function UnescapeNL(s: string): string {
    if |s| >= 2 && s[0] == '\\' && s[1] == 'n' then "\n" + UnescapeNL(s[2..])
    else if s == [] then []
    else [s[0]] + UnescapeNL(s[1..])
  }

  /** On text without backslashes the escaping is reversible. */
  lemma {:induction false} UnescapeTrimNL(s: string)
    requires '\\' !in s
    ensures UnescapeNL(TrimNL(s)) == s
  {
    if s != [] {
      assert '\\' !in s[1..];
      UnescapeTrimNL(s[1..]);
      var rest := TrimNL(s[1..]);
      if s[0] == '\n' {
        assert TrimNL(s) == "\\n" + rest;
        assert ("\\n" + rest)[2..] == rest;
      } else {
        assert TrimNL(s) == [s[0]] + rest;
        assert ([s[0]] + rest)[1..] == rest;
      }
    }
  }
}
