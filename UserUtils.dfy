/**
 * The stored user id: read back only when it has the shape of a UUID
 * (36 characters, each a hexadecimal digit or a dash), written and removed
 * without any check.
 */
module UserUtils {
  import opened Wrappers
  import opened Storage
  import AuthContext

  const UserIdLength: nat := 36

  /** The character class [0-9a-fA-F-]. */
  predicate IsHexOrDash(c: char) {
    ('0' <= c <= '9') || ('a' <= c <= 'f') || ('A' <= c <= 'F') || c == '-'
  }

  /** The test `getUserId` applies: exactly 36 characters, all from the class. */
  predicate IsUserIdFormat(s: string): (b: bool)
    ensures b <==> MatchesClassRepeat(s, UserIdLength)
  {
    MatchesClassRepeatIff(s, UserIdLength);
    |s| == UserIdLength && forall i :: 0 <= i < |s| ==> IsHexOrDash(s[i])
  }

  /** A matcher for the anchored pattern ^[0-9a-fA-F-]{n}$, one character at a time. */
  predicate MatchesClassRepeat(s: string, n: nat)
    decreases n
  {
    if n == 0 then s == []
    else |s| > 0 && IsHexOrDash(s[0]) && MatchesClassRepeat(s[1..], n - 1)
  }

  /** The format test is the anchored pattern with n = 36. */
  lemma {:induction false} MatchesClassRepeatIff(s: string, n: nat)
    ensures MatchesClassRepeat(s, n) <==> |s| == n && forall i :: 0 <= i < |s| ==> IsHexOrDash(s[i])
    decreases n
  {
    if n > 0 && |s| > 0 {
      MatchesClassRepeatIff(s[1..], n - 1);
      if IsHexOrDash(s[0]) && (forall i :: 0 <= i < |s[1..]| ==> IsHexOrDash(s[1..][i])) {
        forall i | 0 <= i < |s| ensures IsHexOrDash(s[i]) {
          if i > 0 { assert s[i] == s[1..][i - 1]; }
        }
      }
    }
  }

  /** `userId && pattern.test(userId) ? userId : null`. */
  function CheckedUserId(stored: Option<string>): (r: Option<string>)
    ensures r.Some? <==> stored.Some? && IsUserIdFormat(stored.value)
    ensures r.Some? ==> r == stored
  {
    if stored.Some? && stored.value != "" && IsUserIdFormat(stored.value) then stored else None
  }

  /** An absent or empty stored value yields null. */
  lemma MissingOrEmptyRejected(stored: Option<string>)
    requires stored.None? || stored == Some("")
    ensures CheckedUserId(stored) == None
  {
  }

  /** Dash positions are not checked: 36 dashes pass. */
  lemma DashPositionsUnchecked()
    ensures CheckedUserId(Some("------------------------------------")) == Some("------------------------------------")
  {
    var dashes := "------------------------------------";
    assert |dashes| == 36;
    assert forall i :: 0 <= i < |dashes| ==> dashes[i] == '-';
  }

  /** Nor is the presence of dashes: 36 hex digits of either case pass. */
  lemma DashesOptional()
    ensures CheckedUserId(Some("0123456789abcdefABCDEF0123456789abcd")) == Some("0123456789abcdefABCDEF0123456789abcd")
  {
    var digits := "0123456789abcdefABCDEF0123456789abcd";
    assert |digits| == 36;
    assert forall i :: 0 <= i < |digits| ==> IsHexOrDash(digits[i]);
  }

  /** A canonical UUID with its four dashes, and a 35-character prefix of it. */
  lemma CanonicalUuidAccepted()
    ensures CheckedUserId(Some("123e4567-e89b-12d3-a456-426614174000")) == Some("123e4567-e89b-12d3-a456-426614174000")
    ensures CheckedUserId(Some("123e4567-e89b-12d3-a456-42661417400")) == None
  {
    var id := "123e4567-e89b-12d3-a456-426614174000";
    assert |id| == 36;
    assert forall i :: 0 <= i < |id| ==> IsHexOrDash(id[i]);
    assert |"123e4567-e89b-12d3-a456-42661417400"| == 35;
  }

  /**
   * Storing a value and reading it back yields it exactly when it has the
   * format; otherwise the read yields null, since storing does not check.
   */
  lemma SetThenGet(entries: map<string, string>, v: string)
    ensures CheckedUserId(Lookup(entries[AuthContext.UserIdKey := v], AuthContext.UserIdKey)) == if IsUserIdFormat(v) then Some(v) else None
  {
  }

  /** After removal nothing is read back, whatever was stored. */
  lemma RemoveThenGet(entries: map<string, string>)
    ensures CheckedUserId(Lookup(entries - {AuthContext.UserIdKey}, AuthContext.UserIdKey)) == None
  {
  }

  /** `getUserId`: the checked stored id; a failed read (`readFault`) is caught and yields null. */
  method GetUserId(store: AsyncStorage, readFault: bool) returns (r: Option<string>)
    ensures r.Some? ==> IsUserIdFormat(r.value) && AuthContext.UserIdKey in store.entries && r.value == store.entries[AuthContext.UserIdKey]
    ensures r == if readFault then None else CheckedUserId(Lookup(store.entries, AuthContext.UserIdKey))
  {
    var ok, userId := store.GetItem(AuthContext.UserIdKey, readFault);
    if !ok {
      return None;
    }
    r := CheckedUserId(userId);
  }

  /** `setUserId`: stores the value unchecked; a failed write is caught and changes nothing. */
  method SetUserId(store: AsyncStorage, userId: string, writeFault: bool)
    modifies store
    ensures store.entries == if writeFault then old(store.entries) else old(store.entries)[AuthContext.UserIdKey := userId]
  {
    var _ := store.SetItem(AuthContext.UserIdKey, userId, writeFault);
  }

  /** `removeUserId`: deletes the key; a failed removal is caught and changes nothing. */
  method RemoveUserId(store: AsyncStorage, removeFault: bool)
    modifies store
    ensures store.entries == if removeFault then old(store.entries) else old(store.entries) - {AuthContext.UserIdKey}
  {
    var _ := store.RemoveItem(AuthContext.UserIdKey, removeFault);
  }
}
