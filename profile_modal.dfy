/** The profile dialog (`src/components/ProfileModal.tsx`): the avatar initials,
    the default of the OTP switch and the payload the switch sends. */
module Profile {
  import opened JsText
  import opened Users
  import Auth

  /** `s.split(" ")`: the pieces between single spaces, empty ones included. */
  function Split(s: string): (pieces: seq<string>)
    ensures |pieces| >= 1
    ensures forall k | 0 <= k < |pieces| :: ' ' !in pieces[k]
    ensures Join(pieces) == s
  {
    if s == [] then [[]]
    else
      var rest := Split(s[1..]);
      if s[0] == ' ' then
        assert [s[0]] + s[1..] == s;
        [[]] + rest
      else
        var first := [s[0]] + rest[0];
        assert Join([first] + rest[1..]) == [s[0]] + Join(rest) by {
          if |rest| > 1 {
            assert ([first] + rest[1..])[1..] == rest[1..];
          }
        }
        assert [s[0]] + s[1..] == s;
        [first] + rest[1..]
  }

  /** `pieces.join(" ")`. */
  function Join(pieces: seq<string>): string {
    if |pieces| == 0 then []
    else if |pieces| == 1 then pieces[0]
    else pieces[0] + " " + Join(pieces[1..])
  }

  /** A piece without spaces splits to itself. */
  lemma {:induction false} SplitOfWord(p: string)
    requires ' ' !in p
    ensures Split(p) == [p]
  {
    if p != [] {
      SplitOfWord(p[1..]);
    }
  }

  /** Splitting `p + " " + t` for a piece `p` without spaces yields `p` and then the pieces of `t`. */
  lemma {:induction false} SplitAfterWord(p: string, t: string)
    requires ' ' !in p
    ensures Split(p + " " + t) == [p] + Split(t)
  {
    if p == [] {
      assert p + " " + t == [' '] + t;
      assert (p + " " + t)[1..] == t;
    } else {
      assert (p + " " + t)[1..] == p[1..] + " " + t;
      SplitAfterWord(p[1..], t);
      assert [p[0]] + p[1..] == p;
    }
  }

  /** `split(" ")` undoes `join(" ")` on pieces without spaces: with the round trip in
      `Split`'s contract, the two are inverse. */
  lemma {:induction false} SplitOfJoin(pieces: seq<string>)
    requires |pieces| >= 1
    requires forall k | 0 <= k < |pieces| :: ' ' !in pieces[k]
    ensures Split(Join(pieces)) == pieces
  {
    if |pieces| == 1 {
      SplitOfWord(pieces[0]);
    } else {
      SplitOfJoin(pieces[1..]);
      SplitAfterWord(pieces[0], Join(pieces[1..]));
    }
  }

  /** `.map((n) => n[0]).join("")`: the first character of every piece, where an
      empty piece gives `undefined`, which `join` writes as nothing. */
  function FirstChars(pieces: seq<string>): (r: string)
    ensures |r| <= |pieces|
    ensures (forall i | 0 <= i < |pieces| :: pieces[i] != []) ==> |r| == |pieces|
    ensures pieces != [] && pieces[0] != [] ==> r != [] && r[0] == pieces[0][0]
  {
    if pieces == [] then []
    else (if pieces[0] == [] then [] else [pieces[0][0]]) + FirstChars(pieces[1..])
  }

  /** Reference definition: the characters of `s` that begin a word, i.e. that are not
      a space and stand first or right after a space (`boundary` says whether the
      character before `s` was a space, or there was none). */
  function WordInitials(s: string, boundary: bool): string {
    if s == [] then []
    else (if boundary && s[0] != ' ' then [s[0]] else []) + WordInitials(s[1..], s[0] == ' ')
  }

  /** The first characters of the pieces of `s` are exactly its word initials; and
      the pieces after the first contribute the word initials of `s` read as if it
      did not start a word. */
  lemma {:induction false} FirstCharsOfSplit(s: string)
    ensures FirstChars(Split(s)) == WordInitials(s, true)
    ensures FirstChars(Split(s)[1..]) == WordInitials(s, false)
  {
    if s != [] {
      FirstCharsOfSplit(s[1..]);
      var rest := Split(s[1..]);
      if s[0] == ' ' {
        assert Split(s) == [[]] + rest;
        assert Split(s)[1..] == rest;
      } else {
        var first := [s[0]] + rest[0];
        assert Split(s) == [first] + rest[1..];
        assert Split(s)[1..] == rest[1..];
      }
    }
  }

  function Min(a: int, b: int): int {
    if a < b then a else b
  }

  /** `getInitials(name, email)`. */
  function GetInitials(name: Option<string>, email: Option<string>): (r: string)
    ensures |r| <= 2
    ensures TruthyStr(name) ==>
      var initials := ToUpper(WordInitials(name.value, true));
      r == initials[..Min(2, |initials|)]
    ensures !TruthyStr(name) && TruthyStr(email) ==>
      |r| == Min(2, |email.value|)
      && forall i | 0 <= i < |r| :: r[i] == UpperChar(email.value[i])
    ensures !TruthyStr(name) && !TruthyStr(email) ==> r == "U"
  {
    if TruthyStr(name) then
      var joined := ToUpper(FirstChars(Split(name.value)));
      FirstCharsOfSplit(name.value);
      joined[..Min(2, |joined|)]
    else if TruthyStr(email) then
      ToUpper(email.value[..Min(2, |email.value|)])
    else
      "U"
  }

  /** A name made only of spaces is truthy, so it gives empty initials rather than
      falling back to the email or to "U". */
  lemma BlankNameGivesNoInitials(n: nat, email: Option<string>)
    requires n > 0
    ensures GetInitials(Some(seq(n, _ => ' ')), email) == []
  {
    var name: string := seq(n, _ => ' ');
    assert WordInitials(name, true) == [] by {
      BlankHasNoInitials(name, true);
    }
  }

  lemma {:induction false} BlankHasNoInitials(s: string, boundary: bool)
    requires forall i | 0 <= i < |s| :: s[i] == ' '
    ensures WordInitials(s, boundary) == []
  {
    if s != [] {
      BlankHasNoInitials(s[1..], true);
    }
  }

  /** The switch's `checked`: on unless `otpEnabled` is exactly `false`. */
  predicate SwitchChecked(otpEnabled: Option<bool>)
    ensures otpEnabled.None? ==> SwitchChecked(otpEnabled)
    ensures otpEnabled.Some? ==> SwitchChecked(otpEnabled) == otpEnabled.value
  {
    otpEnabled != Some(false)
  }

  /** For a verified user, the switch and the login gate agree exactly when
      `otpEnabled` is set: an absent flag shows as on in the switch but lets the
      user past the gate without a code. */
  lemma SwitchAndGateDisagreeOnlyWhenUnset(u: User)
    requires TruthyNum(u.emailVerificationTime)
    ensures (SwitchChecked(u.otpEnabled) == Auth.OtpRequired(u)) <==> u.otpEnabled.Some?
    ensures u.otpEnabled.None? ==> SwitchChecked(u.otpEnabled) && !Auth.OtpRequired(u)
  {
    match u.otpEnabled
    case None =>
    case Some(on) => assert Auth.OtpRequired(u) == on;
  }

  /** `handleOtpToggle`: sends `update` with `otpEnabled` only; the name is not sent,
      so the caller's name survives and the change reaches only the caller's record. */
  method HandleOtpToggle(store: UserStore, authId: Option<UserId>, checked: bool)
    returns (r: Outcome, sent: Patch)
    modifies store
    ensures authId.Some? ==> sent == Patch(None, Some(checked))
    ensures authId.Some? && authId.value in old(store.docs) ==>
      r == Done
      && store.docs == old(store.docs)[authId.value := old(store.docs)[authId.value].(otpEnabled := Some(checked))]
    ensures !(authId.Some? && authId.value in old(store.docs)) ==> r.Failed? && store.docs == old(store.docs)
  {
    r, sent := store.Update(authId, UpdateArgs(None, Some(checked)));
  }
}
