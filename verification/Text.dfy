/** The few facts about Python text that the models rely on. */
module Text {

  /** `str.isspace`, which also decides what `str.strip` removes. */
  predicate IsSpace(c: char) {
    var n := c as int;
    || 0x09 <= n <= 0x0d || 0x1c <= n <= 0x20 || n == 0x85 || n == 0xa0 || n == 0x1680
    || 0x2000 <= n <= 0x200a || n == 0x2028 || n == 0x2029 || n == 0x202f || n == 0x205f
    || n == 0x3000
  }

  function StripLeft(s: string): (r: string)
    ensures r == [] || !IsSpace(r[0])
    ensures |r| <= |s| && r == s[|s| - |r|..]
  {
    if s != [] && IsSpace(s[0]) then StripLeft(s[1..]) else s
  }

  function StripRight(s: string): (r: string)
    ensures r == [] || !IsSpace(r[|r| - 1])
    ensures |r| <= |s| && r == s[..|r|]
  {
    if s != [] && IsSpace(s[|s| - 1]) then StripRight(s[..|s| - 1]) else s
  }

  /** `str.strip`. */
  function Strip(s: string): (r: string)
    ensures r == [] || (!IsSpace(r[0]) && !IsSpace(r[|r| - 1]))
  {
    StripRight(StripLeft(s))
  }

  /** A non-empty text that stripping leaves alone. */
  predicate Trimmed(s: string) {
    s != "" && Strip(s) == s
  }

  lemma TrimmedIff(s: string)
    ensures Trimmed(s) <==> s != "" && !IsSpace(s[0]) && !IsSpace(s[|s| - 1])
  {
    if s != "" && !IsSpace(s[0]) {
      assert StripLeft(s) == s;
    }
  }

  lemma OneCharacterIsTrimmed(c: char)
    requires !IsSpace(c)
    ensures Trimmed([c])
  {
    TrimmedIff([c]);
  }
}
