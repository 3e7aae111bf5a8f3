/** The API-key format check `TOKEN_REGEX = ^AIza[0-9A-Za-z_\-]{35}$`
    (main.py:241), applied with `re.match`. */
module TokenFormat {
  import opened Text

  const KEY_PREFIX := "AIza"
  const KEY_TAIL_LENGTH := 35
  const KEY_LENGTH := 39

  /** The character class `[0-9A-Za-z_\-]`. */
  predicate IsKeyChar(c: char)
  {
    '0' <= c <= '9' || 'A' <= c <= 'Z' || 'a' <= c <= 'z' || c == '_' || c == '-'
  }

  /** The shape of a Google API key: 39 characters, "AIza", then 35 key characters. */
  predicate HasKeyShape(s: string)
  {
    && |s| == KEY_LENGTH
    && s[..4] == KEY_PREFIX
    && forall i | 4 <= i < |s| :: IsKeyChar(s[i])
  }

  /** Python's `$` without MULTILINE: the end of the text, or just before a
      newline that ends the text. */
  predicate AtEnd(s: string, i: nat)
  {
    i == |s| || (i + 1 == |s| && s[i] == '\n')
  }

  /** `[0-9A-Za-z_\-]{k}$` matched from position `i`. */
  predicate ClassRunThenEnd(s: string, i: nat, k: nat)
    decreases k
  {
    if k == 0 then AtEnd(s, i)
    else i < |s| && IsKeyChar(s[i]) && ClassRunThenEnd(s, i + 1, k - 1)
  }

  /** `TOKEN_REGEX.match(s)` succeeds. */
  predicate TokenRegexMatches(s: string)
  {
    StartsWith(s, KEY_PREFIX) && ClassRunThenEnd(s, 4, KEY_TAIL_LENGTH)
  }

  /** A run of `k` class characters from `i` followed by the end anchor. */
  lemma {:induction false} ClassRunThenEndSpec(s: string, i: nat, k: nat)
    ensures ClassRunThenEnd(s, i, k) <==>
              i + k <= |s| && (forall j | i <= j < i + k :: IsKeyChar(s[j])) && AtEnd(s, i + k)
    decreases k
  {
    if k > 0 {
      ClassRunThenEndSpec(s, i + 1, k - 1);
    }
  }

  /** What the regex accepts: a well-shaped key, optionally followed by one final newline. */
  lemma TokenRegexMatchesSpec(s: string)
    ensures TokenRegexMatches(s) <==>
              HasKeyShape(s) || (|s| == KEY_LENGTH + 1 && s[KEY_LENGTH] == '\n' && HasKeyShape(s[..KEY_LENGTH]))
  {
    ClassRunThenEndSpec(s, 4, KEY_TAIL_LENGTH);
    if |s| == KEY_LENGTH + 1 {
      var key := s[..KEY_LENGTH];
      assert key[..4] == s[..4];
      assert forall i | 4 <= i < |key| :: key[i] == s[i];
      assert !HasKeyShape(s);
    }
  }

  /** On stripped text, as `receive_token` applies it, the check accepts exactly
      the 39-character keys that start with "AIza" and continue with 35 key characters. */
  lemma StrippedKeyAccepted(text: string)
    ensures TokenRegexMatches(Strip(text)) <==> HasKeyShape(Strip(text))
  {
    TokenRegexMatchesSpec(Strip(text));
  }

  /** A well-shaped key is never empty, so the resolver never reads it as "no token". */
  lemma KeyShapeNonEmpty(s: string)
    requires HasKeyShape(s)
    ensures s != [] && s[0] == 'A'
  {
  }
}
