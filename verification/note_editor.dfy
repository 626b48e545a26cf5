/**
 * The note editor: tag entry and removal, the open/reset effect, the save
 * flow (validation, default title, free-tier quota on create, best-effort
 * counter increment) and the premium-only AI summary gate.
 */
module NoteEditor {
  import opened Common
  import opened Records

  // ---------------------------------------------------------------------------
  // Tags
  // ---------------------------------------------------------------------------

  /** The keys that commit the tag input. */
  predicate IsCommitKey(key: string)
  {
    key == "Enter" || key == ","
  }

  /**
   * `tagInput.trim().toLowerCase()`: the lower-cased slice of the input left
   * once the white space at both ends is cut; it is trimmed and lower-case.
   */
  function NormalizeTag(input: string): (r: string)
    ensures exists i, j ::
      0 <= i <= j <= |input| && r == Lower(input[i..j]) && AllSpace(input[..i]) && AllSpace(input[j..])
    ensures Trim(r) == r
    ensures Lower(r) == r
  {
    var t := Trim(input);
    TrimSpec(input);
    LowerIdempotent(t);
    LowerOfTrimmedIsTrimmed(t);
    Lower(t)
  }

  /** Lower-casing a string without white space at its ends keeps it so. */
  lemma LowerOfTrimmedIsTrimmed(t: string)
    requires t == [] || (!IsSpace(t[0]) && !IsSpace(t[|t| - 1]))
    ensures Trim(Lower(t)) == Lower(t)
  {
    var l := Lower(t);
    if t != [] {
      LowerKeepsSpace(t[0]);
      LowerKeepsSpace(t[|t| - 1]);
      assert TrimStart(l) == l;
      assert TrimEnd(l) == l;
    }
  }

  /** Normalizing twice is normalizing once. */
  lemma NormalizeTagIdempotent(input: string)
    ensures NormalizeTag(NormalizeTag(input)) == NormalizeTag(input)
  {
    var r := NormalizeTag(input);
    assert Trim(r) == r;
    assert Lower(r) == r;
  }

  /**
   * The tag list after a commit of `input`: the normalized tag is appended at
   * the end when it is non-empty and not yet present; otherwise the list is
   * unchanged. A duplicate-free list stays duplicate-free.
   */
  function CommitTag(tags: seq<string>, input: string): (r: seq<string>)
    ensures |tags| <= |r| <= |tags| + 1 && r[..|tags|] == tags
    ensures |r| == |tags| + 1 <==> NormalizeTag(input) != "" && NormalizeTag(input) !in tags
    ensures |r| == |tags| + 1 ==> r[|tags|] == NormalizeTag(input)
    ensures NormalizeTag(input) != "" ==> NormalizeTag(input) in r
    ensures NoDup(tags) ==> NoDup(r)
  {
    var t := NormalizeTag(input);
    if t != "" && t !in tags then tags + [t] else tags
  }

  /** `tags.filter(tag => tag !== t)`. */
  function WithoutTag(tags: seq<string>, t: string): seq<string>
  {
    if tags == [] then []
    else (if tags[0] != t then [tags[0]] else []) + WithoutTag(tags[1..], t)
  }

  /**
   * Removing a tag drops every copy of it, keeps every other tag as often as
   * it occurred, and keeps their relative order.
   */
  lemma {:induction false} WithoutTagSpec(tags: seq<string>, t: string)
    ensures t !in WithoutTag(tags, t)
    ensures forall x :: x != t ==> multiset(WithoutTag(tags, t))[x] == multiset(tags)[x]
    ensures IsSubsequence(WithoutTag(tags, t), tags)
  {
    if tags != [] {
      WithoutTagSpec(tags[1..], t);
      var rest := WithoutTag(tags[1..], t);
      assert tags == [tags[0]] + tags[1..];
      assert multiset(tags) == multiset([tags[0]]) + multiset(tags[1..]);
      if tags[0] != t {
        assert ([tags[0]] + rest)[1..] == rest;
      } else {
        assert WithoutTag(tags, t) == rest;
      }
    }
  }

  /** Removing a tag from a duplicate-free list keeps it duplicate-free. */
  lemma {:induction false} WithoutTagNoDup(tags: seq<string>, t: string)
    requires NoDup(tags)
    ensures NoDup(WithoutTag(tags, t))
  {
    if tags != [] {
      WithoutTagNoDup(tags[1..], t);
      WithoutTagSpec(tags[1..], t);
      var rest := WithoutTag(tags[1..], t);
      if tags[0] != t {
        assert tags[0] !in tags[1..];
        assert multiset(tags[1..])[tags[0]] == 0;
        assert tags[0] !in rest;
      }
    }
  }

  // ---------------------------------------------------------------------------
  // Save
  // ---------------------------------------------------------------------------

  /** Neither the trimmed title nor the trimmed content has anything in it. */
  predicate IsBlankDraft(title: string, content: string)
  {
    Trim(title) == "" && Trim(content) == ""
  }

  /** The stored title: the trimmed title, or `Untitled` when that is empty. */
  function PersistedTitle(title: string): (r: string)
    ensures r != "" && Trim(r) == r
    ensures Trim(title) != "" ==> r == Trim(title)
    ensures AllSpace(title) ==> r == "Untitled"
  {
    TrimIdempotent(title);
    TrimEmptyIffAllSpace(title);
    TrimOfTrimmed("Untitled");
    if Trim(title) == "" then "Untitled" else Trim(title)
  }

  /** The create-time quota test: a cached free-tier profile at or over the limit. */
  predicate QuotaReached(profile: Option<Profile>)
  {
    profile.Some? && profile.value.tier == Free && CachedCount(profile) >= FreeNoteLimit
  }

  /** The write a save sends: an update of the edited note, or an insert for the user. */
  datatype NoteWrite =
    | UpdateNote(noteId: string, title: string, content: string, tags: seq<string>)
    | InsertNote(userId: string, title: string, content: string, tags: seq<string>)

  /** What `handleSave` ends in. */
  datatype SaveOutcome =
    | SaveIgnored
    | TitleOrContentRequired
    | FreeLimitReached
    | SaveFailed(write: NoteWrite, message: string)
      // `onSave` (reload the list) and `onClose` follow
    | SaveSucceeded(write: NoteWrite, counter: Option<CounterWrite>)

  /** The toast text of a failed save: the error's message, or a fallback when it is empty. */
  function SaveErrorText(message: string): (r: string)
    ensures r != ""
    ensures message != "" ==> r == message
    ensures message == "" ==> r == "Failed to save note"
  {
    if message != "" then message else "Failed to save note"
  }

  /**
   * How a sent write ends: a failure carries the write and the toast text; a
   * success carries the write and the counter update that follows it, if any.
   */
  function Settle(w: NoteWrite, writeError: Option<string>, counter: Option<CounterWrite>): (r: SaveOutcome)
    ensures r.SaveFailed? <==> writeError.Some?
    ensures (r.SaveFailed? || r.SaveSucceeded?) && r.write == w
    ensures r.SaveSucceeded? ==> r.counter == counter
  {
    if writeError.Some? then SaveFailed(w, SaveErrorText(writeError.value)) else SaveSucceeded(w, counter)
  }

  /** What `handleSave` ends in, from the state it starts in and the backend's answer to the note write. */
  function SaveResult(user: Option<User>, profile: Option<Profile>, saving: bool, editing: Option<Note>,
                      title: string, content: string, tags: seq<string>, writeError: Option<string>): SaveOutcome
  {
    if user.None? || saving then SaveIgnored
    else if IsBlankDraft(title, content) then TitleOrContentRequired
    else if editing.Some? then
      Settle(UpdateNote(editing.value.id, PersistedTitle(title), content, tags), writeError, None)
    else if QuotaReached(profile) then FreeLimitReached
    else
      Settle(InsertNote(user.value.id, PersistedTitle(title), content, tags), writeError,
             Some(CounterWrite(user.value.id, CachedCount(profile) + 1)))
  }

  /**
   * Nothing is written without a user, while a save is in flight, for a blank
   * draft, or for a create over the quota; an edit never meets the quota; the
   * write carries the persisted title and the content and tags unchanged; a
   * write error is the only way to fail; only a successful create is followed
   * by a counter write, of the cached count plus one, keyed by the user id.
   */
  lemma SaveResultSpec(user: Option<User>, profile: Option<Profile>, saving: bool, editing: Option<Note>,
                       title: string, content: string, tags: seq<string>, writeError: Option<string>)
    ensures var r := SaveResult(user, profile, saving, editing, title, content, tags, writeError);
      && (r == SaveIgnored <==> user.None? || saving)
      && (r == TitleOrContentRequired <==> user.Some? && !saving && IsBlankDraft(title, content))
      && (r == FreeLimitReached <==>
            user.Some? && !saving && !IsBlankDraft(title, content) && editing.None? && QuotaReached(profile))
      && (r.SaveFailed? || r.SaveSucceeded? ==>
            && r.write.title == PersistedTitle(title) && r.write.content == content && r.write.tags == tags
            && (r.write.UpdateNote? <==> editing.Some?)
            && (r.write.UpdateNote? ==> r.write.noteId == editing.value.id)
            && (r.write.InsertNote? ==> r.write.userId == user.value.id))
      && (r.SaveFailed? <==> (r.SaveFailed? || r.SaveSucceeded?) && writeError.Some?)
      && (r.SaveSucceeded? ==>
            && (r.counter.Some? <==> editing.None?)
            && (r.counter.Some? ==> r.counter.value == CounterWrite(user.value.id, CachedCount(profile) + 1)))
  {
  }

  /** What `generateSummary` ends in; the simulated delay is not modelled. */
  datatype SummaryOutcome = SummaryIgnored | PremiumOnly | SummaryComingSoon

  // ---------------------------------------------------------------------------
  // Editor state
  // ---------------------------------------------------------------------------

  class Editor {
    /** The `note` prop: the note being edited, if any. */
    var editing: Option<Note>
    var title: string
    var content: string
    var tags: seq<string>
    var tagInput: string
    var saving: bool
    var generating: bool

    constructor ()
      ensures editing.None? && title == "" && content == "" && tags == [] && tagInput == ""
      ensures !saving && !generating
    {
      editing := None;
      title, content, tags, tagInput := "", "", [], "";
      saving, generating := false, false;
    }

    /**
     * The open/reset effect, run when `note` or `isOpen` changes: on opening,
     * the fields are loaded from the note, or cleared for a new note, and the
     * tag input is emptied; while closed, only the prop changes.
     */
    method OnOpen(isOpen: bool, note: Option<Note>)
      modifies this`editing, this`title, this`content, this`tags, this`tagInput
      ensures editing == note
      ensures isOpen && note.Some? ==>
        title == note.value.title && content == note.value.content && tags == note.value.tags && tagInput == ""
      ensures isOpen && note.None? ==> title == "" && content == "" && tags == [] && tagInput == ""
      ensures !isOpen ==>
        title == old(title) && content == old(content) && tags == old(tags) && tagInput == old(tagInput)
    {
      editing := note;
      if isOpen {
        match note {
          case Some(n) =>
            title, content, tags := n.title, n.content, n.tags;
          case None =>
            title, content, tags := "", "", [];
        }
        tagInput := "";
      }
    }

    /**
     * `handleAddTag`: on Enter or `,` the input is committed and then cleared,
     * whether or not a tag was added; any other key changes nothing.
     */
    method HandleAddTag(key: string)
      modifies this`tags, this`tagInput
      ensures IsCommitKey(key) ==> tags == CommitTag(old(tags), old(tagInput)) && tagInput == ""
      ensures !IsCommitKey(key) ==> tags == old(tags) && tagInput == old(tagInput)
      ensures NoDup(old(tags)) ==> NoDup(tags)
    {
      if IsCommitKey(key) {
        tags := CommitTag(tags, tagInput);
        tagInput := "";
      }
    }

    /** `removeTag`. */
    method RemoveTag(t: string)
      modifies this`tags
      ensures tags == WithoutTag(old(tags), t)
      ensures t !in tags
      ensures NoDup(old(tags)) ==> NoDup(tags)
    {
      WithoutTagSpec(tags, t);
      if NoDup(tags) {
        WithoutTagNoDup(tags, t);
      }
      tags := WithoutTag(tags, t);
    }

    /**
     * `handleSave`, with the backend answers as inputs: `writeError` for the
     * note update or insert, `counterError` for the counter update (read by
     * nothing: it is only logged). The outcome is `SaveResult` of the state the
     * save starts in; the editor's fields are left as they were, and `saving`,
     * raised while the write is in flight, is back at its old value.
     */
    method Save(user: Option<User>, profile: Option<Profile>, writeError: Option<string>, counterError: Option<string>)
      returns (outcome: SaveOutcome)
      modifies this`saving
      ensures outcome == SaveResult(user, profile, old(saving), editing, title, content, tags, writeError)
      ensures saving == old(saving)
    {
      var e, t, c, g := editing, title, content, tags;
      if user.None? || saving {
        return SaveIgnored;
      }
      if IsBlankDraft(t, c) {
        return TitleOrContentRequired;
      }
      saving := true;
      if e.Some? {
        outcome := Settle(UpdateNote(e.value.id, PersistedTitle(t), c, g), writeError, None);
      } else {
        if QuotaReached(profile) {
          saving := false;
          return FreeLimitReached;
        }
        // the counter update's error, if any, is only logged
        outcome := Settle(InsertNote(user.value.id, PersistedTitle(t), c, g), writeError,
                          Some(CounterWrite(user.value.id, CachedCount(profile) + 1)));
      }
      saving := false;
    }

    /**
     * `generateSummary`: nothing with blank content or while generating; refused
     * for a cached free-tier profile (no profile is not refused); otherwise the
     * placeholder message. `generating` is raised and lowered within the call.
     */
    method GenerateSummary(profile: Option<Profile>) returns (outcome: SummaryOutcome)
      ensures Trim(content) == "" || generating ==> outcome == SummaryIgnored
      ensures Trim(content) != "" && !generating && profile.Some? && profile.value.tier == Free ==> outcome == PremiumOnly
      ensures outcome == SummaryComingSoon <==>
        Trim(content) != "" && !generating && !(profile.Some? && profile.value.tier == Free)
    {
      if Trim(content) == "" || generating {
        return SummaryIgnored;
      }
      if profile.Some? && profile.value.tier == Free {
        return PremiumOnly;
      }
      outcome := SummaryComingSoon;
    }
  }

  /** Entering " Work " and then "work" leaves the single tag "work". */
  lemma CommitSameTagTwice()
    ensures CommitTag(CommitTag([], " Work "), "work") == ["work"]
  {
    NormalizeSpacedWork();
    NormalizeWork();
    assert CommitTag([], " Work ") == ["work"];
    assert "work" in ["work"];
  }

  lemma NormalizeSpacedWork()
    ensures NormalizeTag(" Work ") == "work"
  {
    TrimSpacedWork();
    LowerWork();
  }

  lemma TrimSpacedWork()
    ensures Trim(" Work ") == "Work"
  {
    TrimStartSpacedWork();
    TrimEndWork();
  }

  lemma TrimStartSpacedWork()
    ensures TrimStart(" Work ") == "Work "
  {
    var s, t := " Work ", "Work ";
    assert IsSpace(s[0]) && s[1..] == t;
    assert !IsSpace(t[0]);
  }

  lemma TrimEndWork()
    ensures TrimEnd("Work ") == "Work"
  {
    var t, u := "Work ", "Work";
    assert IsSpace(t[|t| - 1]) && t[..|t| - 1] == u;
    assert !IsSpace(u[|u| - 1]);
  }

  lemma LowerWork()
    ensures Lower("Work") == "work"
  {
    assert LowerChar('W') == 'w';
  }

  lemma NormalizeWork()
    ensures NormalizeTag("work") == "work"
  {
    TrimOfTrimmed("work");
    assert Lower("work") == "work";
  }
}
