/** Vocabulary shared by every part of the model: optional values, document
    identifiers, and the whitespace trimming that Mongoose's `trim` setter and
    Joi's `trim()` rule perform (JavaScript's String.prototype.trim). */
module Base {

  datatype Option<+T> = None | Some(value: T)

  /** A MongoDB ObjectId, treated as an opaque number. */
  type Id = nat

  /** How saving a new document ends: stored, refused by a schema validator,
      or refused by a unique index because an equal key is already stored. */
  datatype InsertResult = Inserted | Invalid | Duplicate

  /** The characters String.prototype.trim strips: ECMAScript WhiteSpace
      (tab, vertical tab, form feed, space, no-break space, byte order mark and
      the Unicode space separators) and LineTerminator. */
  predicate IsSpace(c: char) {
    || c == ' ' || c == '\t' || c == '\n' || c == '\r'
    || c == '\U{000B}' || c == '\U{000C}' || c == '\U{00A0}' || c == '\U{1680}'
    || ('\U{2000}' <= c <= '\U{200A}')
    || c == '\U{2028}' || c == '\U{2029}' || c == '\U{202F}' || c == '\U{205F}'
    || c == '\U{3000}' || c == '\U{FEFF}'
  }

  /** Drops leading whitespace: the result is the suffix of `s` that starts at
      its first non-space character. */
  function TrimStart(s: string): (r: string)
    ensures |r| <= |s| && r == s[|s| - |r|..]
    ensures forall i :: 0 <= i < |s| - |r| ==> IsSpace(s[i])
    ensures r != [] ==> !IsSpace(r[0])
  {
    if s != [] && IsSpace(s[0]) then TrimStart(s[1..]) else s
  }

  /** Drops trailing whitespace: the result is the prefix of `s` that ends at
      its last non-space character. */
  function TrimEnd(s: string): (r: string)
    ensures |r| <= |s| && r == s[..|r|]
    ensures forall i :: |r| <= i < |s| ==> IsSpace(s[i])
    ensures r != [] ==> !IsSpace(r[|r| - 1])
  {
    if s != [] && IsSpace(s[|s| - 1]) then TrimEnd(s[..|s| - 1]) else s
  }

  /** String.prototype.trim: `s` without its leading and trailing
      whitespace, and nothing else removed. */
  function Trim(s: string): (r: string)
    ensures |r| <= |s|
    ensures r != [] ==> !IsSpace(r[0]) && !IsSpace(r[|r| - 1])
    ensures exists a, b :: StripsOnlySpace(s, a, b) && r == s[a..b]
  {
    var t := TrimStart(s);
    var r := TrimEnd(t);
    assert r != [] ==> r[0] == t[0];
    TrimStripsOnlySpace(s);
    r
  }

  /** Cutting `s` down to `s[a..b]` removes only whitespace. */
  predicate StripsOnlySpace(s: string, a: int, b: int) {
    && 0 <= a <= b <= |s|
    && (forall i :: 0 <= i < a ==> IsSpace(s[i]))
    && (forall i :: b <= i < |s| ==> IsSpace(s[i]))
  }

  lemma TrimStripsOnlySpace(s: string)
    ensures var r := TrimEnd(TrimStart(s));
      exists a, b :: StripsOnlySpace(s, a, b) && r == s[a..b]
  {
    var t := TrimStart(s);
    var r := TrimEnd(t);
    SliceOfSlice(s, t, r);
    assert StripsOnlySpace(s, |s| - |t|, |s| - |t| + |r|);
  }

  /** A prefix `r` of a suffix `t` of `s` is the slice of `s` between them;
      when both cuts drop only whitespace, so does the slice. */
  lemma SliceOfSlice(s: string, t: string, r: string)
    requires |t| <= |s| && t == s[|s| - |t|..]
    requires |r| <= |t| && r == t[..|r|]
    requires forall i :: 0 <= i < |s| - |t| ==> IsSpace(s[i])
    requires forall i :: |r| <= i < |t| ==> IsSpace(t[i])
    ensures StripsOnlySpace(s, |s| - |t|, |s| - |t| + |r|)
    ensures r == s[|s| - |t|..|s| - |t| + |r|]
  {
    var a := |s| - |t|;
    forall i | a + |r| <= i < |s| ensures IsSpace(s[i]) {
      assert s[i] == t[i - a];
    }
  }

  /** Trimming a trimmed string changes nothing, so a value that went through
      the setter once is stored as it is on every later save. */
  lemma TrimIdempotent(s: string)
    ensures Trim(Trim(s)) == Trim(s)
  {
    var r := Trim(s);
    if r != [] {
      assert TrimStart(r) == r;
      assert TrimEnd(r) == r;
    }
  }

  /** Trimming yields the empty string exactly when every character is
      whitespace. */
  lemma {:induction false} TrimEmptyIffBlank(s: string)
    ensures Trim(s) == [] <==> forall i :: 0 <= i < |s| ==> IsSpace(s[i])
  {
    var t := TrimStart(s);
    if Trim(s) == [] {
      forall i | 0 <= i < |s| ensures IsSpace(s[i]) {
        if i >= |s| - |t| {
          assert s[i] == t[i - (|s| - |t|)];
        }
      }
    } else {
      var r := Trim(s);
      assert r[0] == t[0] == s[|s| - |t|];
    }
  }
}
