/**
 * Flows that cross components: the editor and the dashboard read the
 * profile the authentication context caches, and nothing they do updates it.
 */
module Scenarios {
  import opened Common
  import opened Records
  import opened Dashboard
  import opened NoteEditor
  import opened AuthContext

  /**
   * Two successful creates in one session write the same counter value: the
   * cached profile is not refreshed after the first one, so its count, and
   * with it the quota test, stays where it was. Between the two, the saved
   * editor is closed and reopened for a new note, and a new draft is typed.
   */
  method CreateTwiceInOneSession(auth: AuthProvider, editor: Editor, title: string, content: string)
    returns (first: SaveOutcome, second: SaveOutcome)
    requires auth.user.Some? && !editor.saving && editor.editing.None?
    requires !IsBlankDraft(editor.title, editor.content) && !IsBlankDraft(title, content)
    requires !QuotaReached(auth.profile)
    modifies editor
    ensures auth.profile == old(auth.profile)
    ensures first.SaveSucceeded? && second.SaveSucceeded?
    ensures first.counter == second.counter == Some(CounterWrite(auth.user.value.id, CachedCount(auth.profile) + 1))
    ensures second.write == InsertNote(auth.user.value.id, PersistedTitle(title), content, [])
  {
    var user, profile := auth.user, auth.profile;
    SaveResultSpec(user, profile, false, None, editor.title, editor.content, editor.tags, None);
    first := editor.Save(user, profile, None, None);
    // `onClose`, then "New Note": the open effect runs on no note
    editor.OnOpen(true, None);
    editor.title, editor.content := title, content;
    SaveResultSpec(user, profile, false, None, title, content, [], None);
    second := editor.Save(user, profile, None, None);
  }

  /**
   * Editing from a card: `handleEdit` hands the note to the dashboard, which
   * opens the editor on it. The open effect loads the note's fields, and a
   * save is then an update of that note, which the quota never refuses.
   */
  method EditThenSave(editor: Editor, note: Note, user: Option<User>, profile: Option<Profile>,
                      writeError: Option<string>)
    returns (outcome: SaveOutcome)
    modifies editor
    ensures editor.editing == Some(note) && editor.title == note.title && editor.content == note.content
    ensures editor.tags == note.tags && editor.tagInput == ""
    ensures outcome != FreeLimitReached
    ensures user.Some? && !old(editor.saving) && !IsBlankDraft(note.title, note.content) ==>
      outcome == Settle(UpdateNote(note.id, PersistedTitle(note.title), note.content, note.tags), writeError, None)
  {
    editor.OnOpen(true, Some(note));
    SaveResultSpec(user, profile, editor.saving, Some(note), note.title, note.content, note.tags, writeError);
    outcome := editor.Save(user, profile, writeError, None);
  }

  /**
   * A delete right after a create writes the cached count minus one, not the
   * count the create wrote: both start from the same cached value.
   */
  method CreateThenDelete(auth: AuthProvider, editor: Editor, dashboard: DashboardState, id: string)
    returns (created: SaveOutcome, deleted: DeleteOutcome)
    requires auth.user.Some? && auth.profile.Some? && auth.profile.value.notesCount >= 1
    requires !editor.saving && editor.editing.None?
    requires !IsBlankDraft(editor.title, editor.content) && !QuotaReached(auth.profile)
    modifies editor`saving
    ensures created.SaveSucceeded? && created.counter.Some?
    ensures deleted.Deleted? && deleted.counter.Some?
    ensures created.counter.value.value == auth.profile.value.notesCount + 1
    ensures deleted.counter.value.value == auth.profile.value.notesCount - 1
  {
    created := editor.Save(auth.user, auth.profile, None, None);
    var key;
    key, deleted := dashboard.DeleteNote(id, true, auth.user, auth.profile, None);
  }

  /** Signing out and then receiving the empty session clears every cell and ends loading. */
  method SignOutThenSessionEnds(auth: AuthProvider, fetched: Fetch<Profile>, inserted: Fetch<Profile>)
    modifies auth
    ensures auth.Valid()
    ensures auth.user.None? && auth.session.None? && auth.profile.None?
    ensures auth.RendersChildren()
  {
    var _ := auth.SignOut(None);
    var _, _, _ := auth.AuthChange(None, None, fetched, inserted);
  }

  /**
   * The session handler runs the first render's closure, whose `user` is
   * null: a lookup error then neither creates a profile nor keeps the
   * provider loading.
   */
  method SessionChangeWithLookupError(auth: AuthProvider, s: Session, message: string, inserted: Fetch<Profile>)
    modifies auth
    ensures auth.Valid() && auth.user == Some(s.user) && auth.profile == old(auth.profile)
    ensures auth.RendersChildren()
  {
    var _, created, status := auth.AuthChange(Some(s), None, Err(message), inserted);
    FirstRenderReloadNeverCreates(old(auth.profile), auth.profile, created, status, Err(message), inserted);
  }

  function Shopping(): Note { Note("1", "u", "Shopping", "", ["home"]) }
  function Budget(): Note { Note("2", "u", "Budget report", "", ["work", "home"]) }

  /** Searching the two example notes for "report" finds the second only. */
  lemma SearchExample()
    ensures FilterNotes([Shopping(), Budget()], "report", "") == [Budget()]
  {
    ShoppingMissesReport();
    BudgetMatchesReport();
    assert [Shopping(), Budget()][1..] == [Budget()];
    assert [Budget()][1..] == [];
  }

  lemma ShoppingMissesReport()
    ensures !Visible(Shopping(), "report", "")
  {
    assert Lower("report") == "report";
    assert Lower("Shopping") == "shopping";
    MissingFirstCharNotContained("shopping", "report");
    assert Lower("") == "";
  }

  lemma BudgetMatchesReport()
    ensures Visible(Budget(), "report", "")
  {
    assert Lower("report") == "report";
    assert Lower("Budget report") == "budget " + "report";
    var hay := "budget " + "report";
    assert hay[7..13] == "report";
    ContainsSpec(hay, "report");
    assert OccursAt(hay, "report", 7);
  }

  /** Selecting "work" on the two example notes shows the second only. */
  lemma TagFilterExample()
    ensures FilterNotes([Shopping(), Budget()], "", "work") == [Budget()]
  {
    assert Lower("") == "";
    ContainsEmpty(Lower(Shopping().title));
    ContainsEmpty(Lower(Budget().title));
    assert !Visible(Shopping(), "", "work");
    assert Visible(Budget(), "", "work");
    assert [Shopping(), Budget()][1..] == [Budget()];
    assert [Budget()][1..] == [];
  }

  /** The tags of the two example notes, all of them once in first-seen order. */
  lemma FlatTagsExample()
    ensures FlatTags([Shopping(), Budget()]) == ["home", "work", "home"]
  {
    assert [Shopping(), Budget()][1..] == [Budget()];
    assert [Budget()][1..] == [];
  }

  /** The facets of the two example notes are home and work, in that order. */
  lemma AllTagsExample()
    ensures AllTags([Shopping(), Budget()]) == ["home", "work"]
  {
    FlatTagsExample();
    var flat: seq<string> := ["home", "work", "home"];
    assert flat[..2] == ["home", "work"];
    assert ["home", "work"][..1] == ["home"];
    assert ["home"][..0] == [];
    assert Dedup(["home"]) == ["home"];
    assert Dedup(["home", "work"]) == ["home", "work"];
  }

  /** The facet counts of the two example notes: home 2, work 1. */
  lemma TagCountExample()
    ensures TagCount([Shopping(), Budget()], "home") == 2
    ensures TagCount([Shopping(), Budget()], "work") == 1
  {
    assert [Shopping(), Budget()][1..] == [Budget()];
    assert [Budget()][1..] == [];
  }
}
