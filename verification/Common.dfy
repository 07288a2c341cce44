/** Small value types and string helpers shared by every part of the model. */
module Common {
  datatype Option<+T> = None | Some(value: T)

  datatype Result<+T, +E> = Ok(value: T) | Err(error: E)

  function Max(a: int, b: int): int {
    if a < b then b else a
  }

  function Min(a: int, b: int): int {
    if a < b then a else b
  }

  /** Unicode `White_Space`, which trimming removes. */
  predicate IsSpace(c: char) {
    || '\U{0009}' <= c <= '\U{000D}'
    || c == ' ' || c == '\U{0085}' || c == '\U{00A0}' || c == '\U{1680}'
    || '\U{2000}' <= c <= '\U{200A}'
    || c == '\U{2028}' || c == '\U{2029}' || c == '\U{202F}' || c == '\U{205F}' || c == '\U{3000}'
  }

  function TrimStart(s: string): string {
    if s != [] && IsSpace(s[0]) then TrimStart(s[1..]) else s
  }

  function TrimEnd(s: string): string {
    if s != [] && IsSpace(s[|s| - 1]) then TrimEnd(s[..|s| - 1]) else s
  }

  function Trim(s: string): string {
    TrimEnd(TrimStart(s))
  }

  /** `s` without the prefix `p`, or `s` itself when it has no such prefix. */
  function WithoutPrefix(s: string, p: string): string {
    if p <= s then s[|p|..] else s
  }

  lemma {:induction false} TrimStartTrims(spaces: string, s: string)
    requires (forall c :: c in spaces ==> IsSpace(c)) && (s == "" || !IsSpace(s[0]))
    ensures TrimStart(spaces + s) == s
  {
    if spaces == "" {
      assert spaces + s == s;
    } else {
      assert spaces[0] in spaces && (spaces + s)[1..] == spaces[1..] + s;
      TrimStartTrims(spaces[1..], s);
    }
  }

  lemma {:induction false} TrimEndTrims(s: string, spaces: string)
    requires (forall c :: c in spaces ==> IsSpace(c)) && (s == "" || !IsSpace(s[|s| - 1]))
    ensures TrimEnd(s + spaces) == s
  {
    if spaces == "" {
      assert s + spaces == s;
    } else {
      var most := spaces[..|spaces| - 1];
      assert spaces[|spaces| - 1] in spaces && (s + spaces)[..|s + spaces| - 1] == s + most;
      TrimEndTrims(s, most);
    }
  }

  /** Trimming removes the white space around a text, and none inside it. */
  lemma TrimTrims(before: string, s: string, after: string)
    requires s != "" && !IsSpace(s[0]) && !IsSpace(s[|s| - 1])
    requires forall c :: c in before || c in after ==> IsSpace(c)
    ensures Trim(before + (s + after)) == s
  {
    TrimStartTrims(before, s + after);
    TrimEndTrims(s, after);
  }

}
