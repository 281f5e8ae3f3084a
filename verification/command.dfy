/** How the query runner classifies a statement: `query.trim().split(" ", 1)[0]`,
    compared case-sensitively with "SELECT". */
module Command {

  /** The code points ECMAScript's String.prototype.trim removes: WhiteSpace
      (TAB, VT, FF, ZWNBSP and the Zs category) and LineTerminator (LF, CR, LS, PS). */
  const Trimmable: set<char> := {
    '\t', '\n', '\U{000B}', '\U{000C}', '\r', ' ', '\U{00A0}', '\U{1680}',
    '\U{2000}', '\U{2001}', '\U{2002}', '\U{2003}', '\U{2004}', '\U{2005}',
    '\U{2006}', '\U{2007}', '\U{2008}', '\U{2009}', '\U{200A}',
    '\U{2028}', '\U{2029}', '\U{202F}', '\U{205F}', '\U{3000}', '\U{FEFF}'
  }

  predicate IsTrimmable(c: char) {
    c in Trimmable
  }

  /** Drops leading trimmable characters. */
  function TrimStart(s: string): (r: string)
    ensures |r| <= |s| && r == s[|s| - |r|..]
    ensures forall i :: 0 <= i < |s| - |r| ==> IsTrimmable(s[i])
    ensures r == [] || !IsTrimmable(r[0])
    decreases |s|
  {
    if s != [] && IsTrimmable(s[0]) then TrimStart(s[1..]) else s
  }

  /** Drops trailing trimmable characters. */
  function TrimEnd(s: string): (r: string)
    ensures |r| <= |s| && r == s[..|r|]
    ensures forall i :: |r| <= i < |s| ==> IsTrimmable(s[i])
    ensures r == [] || !IsTrimmable(r[|r| - 1])
    decreases |s|
  {
    if s != [] && IsTrimmable(s[|s| - 1]) then TrimEnd(s[..|s| - 1]) else s
  }

  /** String.prototype.trim. */
  function Trim(s: string): (r: string)
    ensures |r| <= |s|
    ensures r == [] || (!IsTrimmable(r[0]) && !IsTrimmable(r[|r| - 1]))
  {
    TrimEnd(TrimStart(s))
  }

  /** `s[i..j]` is what trimming leaves: everything outside it is trimmable and it
      neither starts nor ends with a trimmable character. */
  ghost predicate IsTrimmedSlice(s: string, i: int, j: int) {
    && 0 <= i <= j <= |s|
    && (forall k :: 0 <= k < i ==> IsTrimmable(s[k]))
    && (forall k :: j <= k < |s| ==> IsTrimmable(s[k]))
    && (i == j || (!IsTrimmable(s[i]) && !IsTrimmable(s[j - 1])))
  }

  lemma {:induction false} TrimStartAt(s: string, i: nat)
    requires i <= |s|
    requires forall k :: 0 <= k < i ==> IsTrimmable(s[k])
    requires i == |s| || !IsTrimmable(s[i])
    ensures TrimStart(s) == s[i..]
    decreases i
  {
    if i > 0 {
      TrimStartAt(s[1..], i - 1);
      assert s[1..][i - 1..] == s[i..];
    }
  }

  /** Trim is fully determined by the characterisation: it returns the one slice
      of `s` that satisfies IsTrimmedSlice. */
  lemma TrimCharacterised(s: string, i: int, j: int)
    requires IsTrimmedSlice(s, i, j)
    ensures Trim(s) == s[i..j]
  {
    if i == j {
      TrimAllTrimmable(s, i);
    } else {
      TrimInner(s, i, j);
    }
  }

  lemma TrimAllTrimmable(s: string, i: int)
    requires IsTrimmedSlice(s, i, i)
    ensures Trim(s) == []
  {
  }

  lemma TrimInner(s: string, i: int, j: int)
    requires IsTrimmedSlice(s, i, j) && i < j
    ensures Trim(s) == s[i..j]
  {
    TrimStartAt(s, i);
    TrimEndOfSuffix(s, i, j);
  }

  lemma TrimEndOfSuffix(s: string, i: int, j: int)
    requires IsTrimmedSlice(s, i, j) && i < j
    ensures TrimEnd(s[i..]) == s[i..j]
  {
  }

  /** `split(" ", 1)[0]`: the prefix of `s` before its first ASCII space. */
  function FirstSpaceToken(s: string): (r: string)
    ensures r <= s
    ensures ' ' !in r
    ensures |r| == |s| || s[|r|] == ' '
  {
    if s == [] || s[0] == ' ' then [] else [s[0]] + FirstSpaceToken(s[1..])
  }

  /** FirstSpaceToken is the only prefix with no space that reaches a space or the end. */
  lemma {:induction false} FirstSpaceTokenUnique(s: string, p: string)
    requires p <= s
    requires ' ' !in p
    requires |p| == |s| || s[|p|] == ' '
    ensures FirstSpaceToken(s) == p
  {
  }

  /** The command keyword the runner derives from a statement. */
  function CommandKeyword(query: string): string {
    FirstSpaceToken(Trim(query))
  }

  /** A statement the runner treats as a read: its keyword is exactly "SELECT". */
  predicate IsRead(query: string) {
    CommandKeyword(query) == "SELECT"
  }

  /** A statement is a read exactly when its trimmed text is "SELECT" or starts
      with "SELECT " (upper case, followed by an ASCII space). */
  lemma IsReadIff(query: string)
    ensures IsRead(query) <==> (Trim(query) == "SELECT" || "SELECT " <= Trim(query))
  {
    var t := Trim(query);
    if t == "SELECT" || "SELECT " <= t {
      SelectTokenOf(t);
    }
    if IsRead(query) {
      SelectTokenShape(t);
    }
  }

  lemma SelectTokenOf(t: string)
    requires t == "SELECT" || "SELECT " <= t
    ensures FirstSpaceToken(t) == "SELECT"
  {
    assert "SELECT" <= t by {
      if t != "SELECT" {
        assert t[..6] == "SELECT " [..6];
      }
    }
    FirstSpaceTokenUnique(t, "SELECT");
  }

  lemma SelectTokenShape(t: string)
    requires FirstSpaceToken(t) == "SELECT"
    ensures t == "SELECT" || "SELECT " <= t
  {
  }

  /** The keyword of a statement with no surrounding whitespace whose text is
      `keyword` followed by a space or by nothing. */
  lemma KeywordOf(query: string, keyword: string)
    requires query != [] && !IsTrimmable(query[0]) && !IsTrimmable(query[|query| - 1])
    requires keyword <= query && ' ' !in keyword
    requires |keyword| == |query| || query[|keyword|] == ' '
    ensures CommandKeyword(query) == keyword
  {
  }

  /** Leading whitespace never changes the classification: trimming removes it. */
  lemma LeadingWhitespaceIgnored(pad: string, query: string)
    requires forall k :: 0 <= k < |pad| ==> IsTrimmable(pad[k])
    ensures Trim(pad + query) == Trim(query)
    ensures IsRead(pad + query) == IsRead(query)
  {
    TrimStartSkips(pad, query);
  }

  lemma {:induction false} TrimStartSkips(pad: string, s: string)
    requires forall k :: 0 <= k < |pad| ==> IsTrimmable(pad[k])
    ensures TrimStart(pad + s) == TrimStart(s)
    decreases |pad|
  {
    if pad == [] {
      assert pad + s == s;
    } else {
      assert (pad + s)[0] == pad[0];
      assert (pad + s)[1..] == pad[1..] + s;
      TrimStartSkips(pad[1..], s);
    }
  }

  lemma PlainSelectIsRead()
    ensures IsRead("SELECT * FROM t")
  {
    KeywordOf("SELECT * FROM t", "SELECT");
  }

  /** An indented SELECT is still a read. */
  lemma IndentedSelectIsRead(pad: string)
    requires forall k :: 0 <= k < |pad| ==> IsTrimmable(pad[k])
    ensures IsRead(pad + "SELECT * FROM t")
  {
    PlainSelectIsRead();
    LeadingWhitespaceIgnored(pad, "SELECT * FROM t");
  }

  /** The comparison is case-sensitive: a lower-case select counts as a write. */
  lemma LowerCaseSelectIsWrite()
    ensures !IsRead("select * from t")
  {
    KeywordOf("select * from t", "select");
  }

  /** Only the ASCII space splits the keyword: SELECT followed by a newline is a write. */
  lemma NewlineAfterSelectIsWrite()
    ensures !IsRead("SELECT\n* FROM t")
  {
    KeywordOf("SELECT\n* FROM t", "SELECT\n*");
  }
}
