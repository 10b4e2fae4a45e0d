/** The new-task dialog (`src/components/kanban/NewTaskModal.tsx`): the guards of
    its three handlers, the record it adds to the task collection, the clean-up
    of the AI's improved text and the classification of AI errors. The AI call,
    the collection's `addDoc` and the clock are parameters. */
module NewTask {
  import opened JsText
  import Kanban

  const ImprovedTag := "(Improved)"
  const ImprovedLabel := "Improved:"
  const CorrectedNote := "Corrected for grammar and clarity"
  const MissingKey := "Missing API Key"

  /** `.replace(/^P\s*\/i, "")` for a literal ASCII pattern `P`: when `s` starts with
      `P` ignoring case, drop it and the longest run of white space after it. */
  function StripLeading(s: string, p: string): (r: string)
    ensures |r| <= |s|
    ensures !StartsWithIgnoreCase(s, p) ==> r == s
    ensures StartsWithIgnoreCase(s, p) ==>
      |r| <= |s| - |p| && AllSpace(s[|p|..|s| - |r|]) && (r == [] || !IsSpace(r[0]))
    ensures IsTrimmed(s) ==> IsTrimmed(r)
  {
    if StartsWithIgnoreCase(s, p) then
      var n := LeadingSpace(s[|p|..]);
      assert s[|p|..][..n] == s[|p|..|p| + n];
      s[|p| + n..]
    else s
  }

  /** The content of `StripLeading`: the result is always a suffix of `s`, and when
      `s` starts with `P` it is what follows `P` and the white space after it; with
      the contract above (the white space is a maximal run), this fixes the result. */
  lemma StripLeadingContent(s: string, p: string)
    ensures var r := StripLeading(s, p); r == s[|s| - |r|..]
    ensures StartsWithIgnoreCase(s, p) ==>
      var r := StripLeading(s, p); s == s[..|p|] + s[|p|..|s| - |r|] + r
  {
    var r := StripLeading(s, p);
    if StartsWithIgnoreCase(s, p) {
      assert s == s[..|p|] + s[|p|..|s| - |r|] + s[|s| - |r|..];
    }
  }

  /** The trailing note `\s*-\s*Corrected for grammar and clarity\.?$` (ignoring
      case) matches `s` from index `k` to the end, with the dash at `a` and the
      phrase starting at `b`. */
  ghost predicate NoteMatchAt(s: string, k: int, a: int, b: int) {
    && 0 <= k <= a < b <= |s|
    && AllSpace(s[k..a]) && s[a] == '-' && AllSpace(s[a + 1..b])
    && b + |CorrectedNote| <= |s|
    && EqualsIgnoreCase(s[b..b + |CorrectedNote|], CorrectedNote)
    && (b + |CorrectedNote| == |s| || (b + |CorrectedNote| + 1 == |s| && s[|s| - 1] == '.'))
  }

  ghost predicate NoteMatches(s: string) {
    exists k, a, b :: NoteMatchAt(s, k, a, b)
  }

  /** Where the phrase of the note would start: `|CorrectedNote|` characters before
      the end, or before a final '.'. */
  function PhraseStart(s: string): int {
    if |s| > 0 && s[|s| - 1] == '.' then |s| - 1 - |CorrectedNote| else |s| - |CorrectedNote|
  }

  /** `.replace(/\s*-\s*Corrected for grammar and clarity\.?$/i, "")`: when the phrase
      ends the text (before an optional '.') and the white space before it is preceded
      by a dash, cut the text before the white space that precedes the dash. */
  function StripNote(s: string): (r: string)
    ensures |r| <= |s|
    ensures r != s ==> r == [] || !IsSpace(r[|r| - 1])
    ensures IsTrimmed(s) ==> IsTrimmed(r)
  {
    var b := PhraseStart(s);
    if b < 0 || !EqualsIgnoreCase(s[b..b + |CorrectedNote|], CorrectedNote) then s
    else
      var d := TrailingSpaceStart(s[..b]);
      if d == 0 || s[d - 1] != '-' then s
      else TrimEnd(s[..d - 1])
  }

  /** Any match of the note puts its phrase at `PhraseStart(s)`. */
  lemma NoteMatchPhrase(s: string, k: int, a: int, b: int)
    requires NoteMatchAt(s, k, a, b)
    ensures b == PhraseStart(s)
  {
    var n := |CorrectedNote|;
    if b + n == |s| {
      assert s[|s| - 1] == s[b..b + n][n - 1];
      assert LowerChar(s[|s| - 1]) == LowerChar(CorrectedNote[n - 1]);
    }
  }

  /** In any match, the dash stands right before the white space that ends `s[..b]`. */
  lemma NoteMatchDash(s: string, k: int, a: int, b: int)
    requires NoteMatchAt(s, k, a, b)
    ensures a + 1 == TrailingSpaceStart(s[..b])
  {
  }

  /** When the note matches, `StripNote` cuts `s` where its leftmost match begins. */
  lemma StripNoteCutsLeftmostMatch(s: string, k: int, a: int, b: int)
    requires NoteMatchAt(s, k, a, b)
    ensures StripNote(s) == s[..|StripNote(s)|]
    ensures NoteMatchAt(s, |StripNote(s)|, a, b)
    ensures forall k', a', b' | NoteMatchAt(s, k', a', b') :: |StripNote(s)| <= k'
  {
    NoteMatchPhrase(s, k, a, b);
    NoteMatchDash(s, k, a, b);
    var e := TrailingSpaceStart(s[..a]);
    assert StripNote(s) == s[..a][..e];
    assert s[e..a] == s[..a][e..];
    forall k', a', b' | NoteMatchAt(s, k', a', b')
      ensures e <= k'
    {
      NoteMatchPhrase(s, k', a', b');
      NoteMatchDash(s, k', a', b');
    }
  }

  /** When the note does not match, `StripNote` leaves `s` as it is. */
  lemma StripNoteWithoutMatch(s: string)
    requires !NoteMatches(s)
    ensures StripNote(s) == s
  {
    var b := PhraseStart(s);
    if 0 <= b && EqualsIgnoreCase(s[b..b + |CorrectedNote|], CorrectedNote) {
      var d := TrailingSpaceStart(s[..b]);
      if d > 0 && s[d - 1] == '-' {
        var e := TrailingSpaceStart(s[..d - 1]);
        assert s[e..d - 1] == s[..d - 1][e..];
        assert s[d..b] == s[..b][d..];
        assert NoteMatchAt(s, e, d - 1, b);
      }
    }
  }

  /** The clean-up of the improved text: trim, drop one leading "(Improved)" and then
      one leading "Improved:" (each with the white space after it, ignoring case),
      then cut the trailing note. */
  function CleanUp(result: string): (r: string)
    ensures |r| <= |result|
    ensures IsTrimmed(r)
  {
    var trimmed := Trim(result);
    var noTag := StripLeading(trimmed, ImprovedTag);
    var noLabel := StripLeading(noTag, ImprovedLabel);
    StripNote(noLabel)
  }

  /** The cleaned text is a contiguous piece of the trimmed answer: the tag and label
      removals cut from the front, the note removal from the back. */
  lemma CleanUpIsSliceOfTrim(result: string) returns (i: nat)
    ensures i + |CleanUp(result)| <= |Trim(result)|
    ensures CleanUp(result) == Trim(result)[i..i + |CleanUp(result)|]
  {
    var t := Trim(result);
    var noTag := StripLeading(t, ImprovedTag);
    var noLabel := StripLeading(noTag, ImprovedLabel);
    var r := StripNote(noLabel);
    assert r == CleanUp(result);
    i := StepsKeepSlice(t, noTag, noLabel, r);
  }

  /** The three removals, applied one after the other to `t`, keep a slice of `t`. */
  lemma StepsKeepSlice(t: string, noTag: string, noLabel: string, r: string) returns (i: nat)
    requires noTag == StripLeading(t, ImprovedTag) && noLabel == StripLeading(noTag, ImprovedLabel)
    requires r == StripNote(noLabel)
    ensures i + |r| <= |t| && r == t[i..i + |r|]
  {
    StripLeadingContent(t, ImprovedTag);
    StripLeadingContent(noTag, ImprovedLabel);
    StripNotePrefix(noLabel);
    i := SliceOfSuffixes(t, noTag, noLabel, r);
  }

  /** A prefix of a suffix of a suffix of `t` is a slice of `t`. */
  lemma SliceOfSuffixes(t: string, u: string, v: string, r: string) returns (i: nat)
    requires |u| <= |t| && u == t[|t| - |u|..]
    requires |v| <= |u| && v == u[|u| - |v|..]
    requires |r| <= |v| && r == v[..|r|]
    ensures i + |r| <= |t| && r == t[i..i + |r|]
  {
    i := |t| - |v|;
    assert v == t[i..];
  }

  /** `StripNote` always keeps a prefix of its input. */
  lemma StripNotePrefix(s: string)
    ensures StripNote(s) == s[..|StripNote(s)|]
  {
  }

  /** When none of the three patterns matches, the clean-up is plain `trim`. */
  lemma CleanUpOfPlainText(result: string)
    requires !StartsWithIgnoreCase(Trim(result), ImprovedTag)
    requires !StartsWithIgnoreCase(Trim(result), ImprovedLabel)
    requires !NoteMatches(Trim(result))
    ensures CleanUp(result) == Trim(result)
  {
    StripNoteWithoutMatch(Trim(result));
  }

  /** Only one leading tag is removed: of a doubled tag, the second stays in place. */
  lemma {:induction false} OneTagRemoved(w: string)
    ensures StripLeading(ImprovedTag + " " + ImprovedTag + w, ImprovedTag) == ImprovedTag + w
  {
    var tail := ImprovedTag + w;
    var s := ImprovedTag + " " + tail;
    assert s[..|ImprovedTag|] == ImprovedTag;
    assert StartsWithIgnoreCase(s, ImprovedTag);
    assert s[|ImprovedTag|..] == [' '] + tail;
    assert LeadingSpace([' '] + tail) == 1 by {
      assert ([' '] + tail)[1..] == tail;
      assert tail[0] == '(';
    }
    assert s[|ImprovedTag| + 1..] == tail;
    assert s == ImprovedTag + " " + ImprovedTag + w;
  }

  /** How an AI failure is reported. */
  datatype Notice =
    | TitleNeeded | DescriptionNeeded | Generated | Improved
    | ConfigMissing | AiFailed(message: string)
    | TaskCreated | CreateFailed

  /** The catch block shared by both AI actions: a message mentioning the missing
      key is a configuration error, anything else is reported as it is. */
  function AiErrorNotice(message: string): (n: Notice)
    ensures n == ConfigMissing <==> Mentions(message, MissingKey)
    ensures n != ConfigMissing ==> n == AiFailed(message)
  {
    if Includes(message, MissingKey) then ConfigMissing else AiFailed(message)
  }

  datatype AiResult = AiText(text: string) | AiError(message: string)

  /** The record handed to `addDoc`. */
  datatype TaskDraft = TaskDraft(
    userId: string,
    title: string,
    description: string,
    status: Kanban.Status,
    createdAt: int,
    updatedAt: int)

  class NewTaskModal {
    var title: string
    var description: string
    var isLoading: bool
    var isAiLoading: bool

    constructor()
      ensures title == [] && description == [] && !isLoading && !isAiLoading
    {
      title, description, isLoading, isAiLoading := [], [], false, false;
    }

    method SetTitle(value: string)
      modifies this
      ensures title == value && description == old(description)
      ensures isLoading == old(isLoading) && isAiLoading == old(isAiLoading)
    {
      title := value;
    }

    method SetDescription(value: string)
      modifies this
      ensures description == value && title == old(title)
      ensures isLoading == old(isLoading) && isAiLoading == old(isAiLoading)
    {
      description := value;
    }

    /** `handleAiDescription` (Auto-Write): with a blank title nothing is called and
        nothing changes. Otherwise the AI's text replaces the description as it is
        (no clean-up), or the error is classified; loading ends either way. */
    method AutoWrite(ai: AiResult) returns (called: bool, notice: Notice)
      modifies this
      ensures title == old(title) && isLoading == old(isLoading)
      ensures called <==> !AllSpace(old(title))
      ensures !called ==>
        notice == TitleNeeded && description == old(description) && isAiLoading == old(isAiLoading)
      ensures called ==> !isAiLoading
      ensures called && ai.AiText? ==> description == ai.text && notice == Generated
      ensures called && ai.AiError? ==> description == old(description) && notice == AiErrorNotice(ai.message)
    {
      if AllSpace(title) {
        return false, TitleNeeded;
      }
      called := true;
      isAiLoading := true;
      match ai {
        case AiText(text) =>
          description := text;
          notice := Generated;
        case AiError(message) =>
          notice := AiErrorNotice(message);
      }
      isAiLoading := false;
    }

    /** `handleAiImprove`: with a blank description nothing is called and nothing
        changes. Otherwise the cleaned-up text replaces the description, or the error
        is classified; loading ends either way. */
    method Improve(ai: AiResult) returns (called: bool, notice: Notice)
      modifies this
      ensures title == old(title) && isLoading == old(isLoading)
      ensures called <==> !AllSpace(old(description))
      ensures !called ==>
        notice == DescriptionNeeded && description == old(description) && isAiLoading == old(isAiLoading)
      ensures called ==> !isAiLoading
      ensures called && ai.AiText? ==> description == CleanUp(ai.text) && notice == Improved
      ensures called && ai.AiError? ==> description == old(description) && notice == AiErrorNotice(ai.message)
    {
      if AllSpace(description) {
        return false, DescriptionNeeded;
      }
      called := true;
      isAiLoading := true;
      match ai {
        case AiText(text) =>
          description := CleanUp(text);
          notice := Improved;
        case AiError(message) =>
          notice := AiErrorNotice(message);
      }
      isAiLoading := false;
    }

    /** `handleSubmit`: with a blank title or no user nothing is sent and nothing
        changes. Otherwise the untrimmed title and description go to `addDoc` as a
        `todo` task of the user, stamped by two clock reads; on success the fields
        are cleared and the dialog asks to close, on failure they are kept. */
    method Submit(userId: Option<string>, createdAt: int, updatedAt: int, addOk: bool)
      returns (sent: Option<TaskDraft>, closeRequested: bool, notice: Option<Notice>)
      modifies this
      ensures isAiLoading == old(isAiLoading)
      ensures AllSpace(old(title)) || userId.None? ==>
        sent.None? && !closeRequested && notice.None?
        && title == old(title) && description == old(description) && isLoading == old(isLoading)
      ensures !AllSpace(old(title)) && userId.Some? ==>
        sent == Some(TaskDraft(userId.value, old(title), old(description), Kanban.Todo, createdAt, updatedAt))
        && !isLoading
        && (addOk ==> title == [] && description == [] && closeRequested && notice == Some(TaskCreated))
        && (!addOk ==> title == old(title) && description == old(description) && !closeRequested
                       && notice == Some(CreateFailed))
    {
      if AllSpace(title) || userId.None? {
        return None, false, None;
      }
      isLoading := true;
      sent := Some(TaskDraft(userId.value, title, description, Kanban.Todo, createdAt, updatedAt));
      if addOk {
        notice := Some(TaskCreated);
        title := [];
        description := [];
        closeRequested := true;
      } else {
        notice := Some(CreateFailed);
        closeRequested := false;
      }
      isLoading := false;
    }
  }
}
