/**
 * The dashboard: the search/tag filter over the loaded notes, the tag facet
 * list with per-tag counts, loading the note list, and the delete flow with
 * its best-effort counter decrement.
 */
module Dashboard {
  import opened Common
  import opened Records

  // ---------------------------------------------------------------------------
  // Filter
  // ---------------------------------------------------------------------------

  /**
   * The search test: the lower-cased term is a substring of the lower-cased
   * title or of the lower-cased raw content (markup is searched as text).
   */
  predicate MatchesSearch(note: Note, term: string)
  {
    Contains(Lower(note.title), Lower(term)) || Contains(Lower(note.content), Lower(term))
  }

  /** The tag test: no tag selected, or exact membership of the selected tag. */
  predicate MatchesTag(note: Note, selectedTag: string)
  {
    selectedTag == "" || selectedTag in note.tags
  }

  predicate Visible(note: Note, term: string, selectedTag: string)
  {
    MatchesSearch(note, term) && MatchesTag(note, selectedTag)
  }

  /** `filteredNotes`: the notes that pass both tests, in their original order. */
  function FilterNotes(notes: seq<Note>, term: string, selectedTag: string): seq<Note>
  {
    if notes == [] then []
    else
      (if Visible(notes[0], term, selectedTag) then [notes[0]] else [])
      + FilterNotes(notes[1..], term, selectedTag)
  }

  /** The search test holds exactly when the lower-cased term occurs in the lower-cased title or content. */
  lemma SearchSpec(note: Note, term: string)
    ensures MatchesSearch(note, term) <==>
      (exists i: nat :: OccursAt(Lower(note.title), Lower(term), i))
      || (exists i: nat :: OccursAt(Lower(note.content), Lower(term), i))
  {
    ContainsSpec(Lower(note.title), Lower(term));
    ContainsSpec(Lower(note.content), Lower(term));
  }

  /** The search ignores the letter case of the term. */
  lemma SearchIgnoresTermCase(note: Note, term: string)
    ensures MatchesSearch(note, Lower(term)) == MatchesSearch(note, term)
  {
    LowerIdempotent(term);
  }

  /** The filtered list is a subsequence of the notes and holds only visible notes. */
  lemma {:induction false} FilterIsOrderedSubsequence(notes: seq<Note>, term: string, selectedTag: string)
    ensures IsSubsequence(FilterNotes(notes, term, selectedTag), notes)
    ensures forall i :: 0 <= i < |FilterNotes(notes, term, selectedTag)| ==>
      Visible(FilterNotes(notes, term, selectedTag)[i], term, selectedTag)
  {
    if notes != [] {
      FilterIsOrderedSubsequence(notes[1..], term, selectedTag);
      var rest := FilterNotes(notes[1..], term, selectedTag);
      if Visible(notes[0], term, selectedTag) {
        assert FilterNotes(notes, term, selectedTag) == [notes[0]] + rest;
        assert ([notes[0]] + rest)[1..] == rest;
      } else {
        assert FilterNotes(notes, term, selectedTag) == rest;
        SubsequenceDropFront(rest, notes);
      }
    }
  }

  /** Skipping the head of the longer sequence keeps a subsequence a subsequence. */
  lemma SubsequenceDropFront<T>(a: seq<T>, b: seq<T>)
    requires b != [] && IsSubsequence(a, b[1..])
    ensures IsSubsequence(a, b)
  {
  }

  /** Every visible note is kept as often as it occurs; every other note is dropped. */
  lemma {:induction false} FilterKeepsExactlyVisible(notes: seq<Note>, term: string, selectedTag: string, n: Note)
    ensures multiset(FilterNotes(notes, term, selectedTag))[n] ==
      if Visible(n, term, selectedTag) then multiset(notes)[n] else 0
  {
    if notes != [] {
      FilterKeepsExactlyVisible(notes[1..], term, selectedTag, n);
      assert notes == [notes[0]] + notes[1..];
      assert multiset(notes) == multiset([notes[0]]) + multiset(notes[1..]);
    }
  }

  /** With an empty search term and no selected tag every note is shown. */
  lemma {:induction false} NoCriteriaShowsAll(notes: seq<Note>)
    ensures FilterNotes(notes, "", "") == notes
  {
    if notes != [] {
      ContainsEmpty(Lower(notes[0].title));
      NoCriteriaShowsAll(notes[1..]);
    }
  }

  // ---------------------------------------------------------------------------
  // Tag facets
  // ---------------------------------------------------------------------------

  /** `notes.flatMap(note => note.tags)`. */
  function FlatTags(notes: seq<Note>): seq<string>
  {
    if notes == [] then [] else notes[0].tags + FlatTags(notes[1..])
  }

  /** The distinct elements of `s`, each kept at its first occurrence, as a `Set` built from `s` iterates. */
  function Dedup<T(==)>(s: seq<T>): seq<T>
  {
    if s == [] then []
    else
      var d := Dedup(s[..|s| - 1]);
      if s[|s| - 1] in d then d else d + [s[|s| - 1]]
  }

  /** `allTags`: the tags of all notes, duplicates removed, in first-seen order. */
  function AllTags(notes: seq<Note>): seq<string>
  {
    Dedup(FlatTags(notes))
  }

  /** `notes.filter(note => note.tags.includes(tag)).length`. */
  function TagCount(notes: seq<Note>, tag: string): nat
  {
    if notes == [] then 0
    else (if tag in notes[0].tags then 1 else 0) + TagCount(notes[1..], tag)
  }

  /** A tag occurs in the flattened list exactly when some note carries it. */
  lemma {:induction false} FlatTagsSpec(notes: seq<Note>, t: string)
    ensures t in FlatTags(notes) <==> exists k :: 0 <= k < |notes| && t in notes[k].tags
  {
    if notes != [] {
      FlatTagsSpec(notes[1..], t);
      if t in FlatTags(notes[1..]) {
        var k :| 0 <= k < |notes[1..]| && t in notes[1..][k].tags;
        assert t in notes[k + 1].tags;
      }
      if exists k :: 0 <= k < |notes| && t in notes[k].tags {
        var k :| 0 <= k < |notes| && t in notes[k].tags;
        if k > 0 {
          assert t in notes[1..][k - 1].tags;
        }
      }
    }
  }

  /** `Dedup` keeps exactly the elements of its input, and none twice. */
  lemma {:induction false} DedupSpec<T>(s: seq<T>)
    ensures NoDup(Dedup(s))
    ensures forall x :: x in Dedup(s) <==> x in s
  {
    if s != [] {
      var init := s[..|s| - 1];
      DedupSpec(init);
      assert s == init + [s[|s| - 1]];
    }
  }

  /** `Dedup` lists the elements in the order of their first occurrence. */
  lemma {:induction false} DedupFirstSeenOrder<T>(s: seq<T>)
    ensures forall x :: x in Dedup(s) ==> x in s
    ensures forall i, j :: 0 <= i < j < |Dedup(s)| ==> FirstIndex(s, Dedup(s)[i]) < FirstIndex(s, Dedup(s)[j])
  {
    DedupSpec(s);
    if s != [] {
      var init := s[..|s| - 1];
      var last := s[|s| - 1];
      DedupSpec(init);
      DedupFirstSeenOrder(init);
      var d := Dedup(init);
      forall x | x in init
        ensures FirstIndex(s, x) == FirstIndex(init, x)
      {
        FirstIndexOfPrefix(init, s, x);
      }
      if last !in d {
        assert FirstIndex(s, last) == |s| - 1;
      }
    }
  }

  /** The first occurrence of an element of a prefix lies in that prefix. */
  lemma FirstIndexOfPrefix<T>(p: seq<T>, s: seq<T>, x: T)
    requires |p| <= |s| && p == s[..|p|] && x in p
    ensures FirstIndex(s, x) == FirstIndex(p, x)
  {
    var k := FirstIndex(p, x);
    assert s[k] == x;
  }

  /**
   * The facet list: no tag twice, exactly the tags some note carries, listed
   * in the order in which they first appear across the notes.
   */
  lemma AllTagsSpec(notes: seq<Note>)
    ensures NoDup(AllTags(notes))
    ensures forall t :: t in AllTags(notes) ==> t in FlatTags(notes)
    ensures forall t :: t in AllTags(notes) <==> exists k :: 0 <= k < |notes| && t in notes[k].tags
    ensures forall i, j :: 0 <= i < j < |AllTags(notes)| ==>
      FirstIndex(FlatTags(notes), AllTags(notes)[i]) < FirstIndex(FlatTags(notes), AllTags(notes)[j])
  {
    DedupSpec(FlatTags(notes));
    DedupFirstSeenOrder(FlatTags(notes));
    forall t
      ensures t in FlatTags(notes) <==> exists k :: 0 <= k < |notes| && t in notes[k].tags
    {
      FlatTagsSpec(notes, t);
    }
  }

  /** A tag carried by some note has a count between 1 and the number of notes. */
  lemma {:induction false} TagCountBounds(notes: seq<Note>, t: string)
    ensures TagCount(notes, t) <= |notes|
    ensures (exists k :: 0 <= k < |notes| && t in notes[k].tags) ==> 1 <= TagCount(notes, t)
  {
    if notes != [] {
      TagCountBounds(notes[1..], t);
      if t !in notes[0].tags && exists k :: 0 <= k < |notes| && t in notes[k].tags {
        var k :| 0 <= k < |notes| && t in notes[k].tags;
        assert t in notes[1..][k - 1].tags;
      }
    }
  }

  /** Every listed facet has a count between 1 and the number of notes. */
  lemma FacetCountBounds(notes: seq<Note>, t: string)
    requires t in AllTags(notes)
    ensures 1 <= TagCount(notes, t) <= |notes|
  {
    AllTagsSpec(notes);
    TagCountBounds(notes, t);
  }

  /**
   * A facet's count is the number of notes the dashboard shows when that tag
   * is selected and the search box is empty. The empty tag is excluded: it
   * selects nothing and so shows every note.
   */
  lemma {:induction false} FacetCountIsFilterSize(notes: seq<Note>, t: string)
    requires t != ""
    ensures TagCount(notes, t) == |FilterNotes(notes, "", t)|
  {
    if notes != [] {
      ContainsEmpty(Lower(notes[0].title));
      FacetCountIsFilterSize(notes[1..], t);
    }
  }

  // ---------------------------------------------------------------------------
  // Dashboard state
  // ---------------------------------------------------------------------------

  /** What `handleDeleteNote` ends in. */
  datatype DeleteOutcome =
    | NotConfirmed
      // the delete request failed: no counter write, no reload
    | DeleteFailed(message: string)
      // the row is gone; the counter write, when there was a profile, is sent and its result only awaited; the list reload follows
    | Deleted(counter: Option<CounterWrite>)
      // the row is gone, but a profile without a user made `user!.id` throw: no counter write, no reload
    | DeletedWithoutUser

  class DashboardState {
    var notes: seq<Note>
    var loading: bool
    var searchTerm: string
    var selectedTag: string

    constructor ()
      ensures notes == [] && loading && searchTerm == "" && selectedTag == ""
    {
      notes := [];
      loading := true;
      searchTerm := "";
      selectedTag := "";
    }

    /** The cards on screen. */
    function VisibleNotes(): seq<Note>
      reads this
    {
      FilterNotes(notes, searchTerm, selectedTag)
    }

    /** The tag options and facets. */
    function Tags(): seq<string>
      reads this
    {
      AllTags(notes)
    }

    /**
     * `loadNotes`: without a user nothing happens. Otherwise the fetched rows
     * (or the empty list when the data is null) replace the list on success,
     * the list is kept on error, and loading ends either way.
     */
    method LoadNotes(user: Option<User>, fetched: Fetch<Option<seq<Note>>>)
      modifies this`notes, this`loading
      ensures user.None? ==> notes == old(notes) && loading == old(loading)
      ensures user.Some? ==> !loading
      ensures user.Some? && fetched.Ok? && fetched.value.Some? ==> notes == fetched.value.value
      ensures user.Some? && fetched.Ok? && fetched.value.None? ==> notes == []
      ensures user.Some? && fetched.Err? ==> notes == old(notes)
    {
      if user.None? {
        return;
      }
      match fetched {
        case Ok(data) =>
          notes := if data.Some? then data.value else [];
        case Err(_) =>
      }
      loading := false;
    }

    /**
     * `handleDeleteNote(id)`: nothing without confirmation; the delete of the
     * row with that `id` (returned in `deleted`) comes first, and only after it succeeds is `max(0, notes_count - 1)` written,
     * keyed by the user id, when a profile is cached. The written value is
     * computed from the cached profile, which this flow never updates.
     */
    method DeleteNote(id: string, confirmed: bool, user: Option<User>, profile: Option<Profile>,
                      deleteError: Option<string>)
      returns (deleted: Option<string>, outcome: DeleteOutcome)
      ensures deleted.Some? <==> confirmed
      ensures deleted.Some? ==> deleted.value == id
      ensures !confirmed ==> outcome == NotConfirmed
      ensures confirmed && deleteError.Some? ==> outcome == DeleteFailed(deleteError.value)
      ensures confirmed && deleteError.None? && profile.None? ==> outcome == Deleted(None)
      ensures confirmed && deleteError.None? && profile.Some? && user.None? ==> outcome == DeletedWithoutUser
      ensures confirmed && deleteError.None? && profile.Some? && user.Some? ==>
        && outcome.Deleted? && outcome.counter.Some?
        && outcome.counter.value.key == user.value.id
        && outcome.counter.value.value >= 0
        && (profile.value.notesCount >= 1 ==> outcome.counter.value.value == profile.value.notesCount - 1)
        && (profile.value.notesCount < 1 ==> outcome.counter.value.value == 0)
      ensures outcome.Deleted? && outcome.counter.Some? ==> confirmed && deleteError.None? && profile.Some?
    {
      if !confirmed {
        return None, NotConfirmed;
      }
      deleted := Some(id);
      if deleteError.Some? {
        return deleted, DeleteFailed(deleteError.value);
      }
      if profile.None? {
        return deleted, Deleted(None);
      }
      if user.None? {
        return deleted, DeletedWithoutUser;
      }
      var count := profile.value.notesCount - 1;
      var floored := if count < 0 then 0 else count;
      outcome := Deleted(Some(CounterWrite(user.value.id, floored)));
    }

    /**
     * `handleDeleteNote` as a whole: the delete and counter decision of
     * `DeleteNote`, then, when the row is gone and no error was thrown, the
     * `loadNotes` call with `reloaded` as the answer to its query. Every other
     * outcome leaves the list and the loading flag as they were.
     */
    method HandleDeleteNote(id: string, confirmed: bool, user: Option<User>, profile: Option<Profile>,
                            deleteError: Option<string>, reloaded: Fetch<Option<seq<Note>>>)
      returns (deleted: Option<string>, outcome: DeleteOutcome)
      modifies this`notes, this`loading
      ensures deleted.Some? <==> confirmed
      ensures deleted.Some? ==> deleted.value == id
      ensures !confirmed ==> outcome == NotConfirmed
      ensures confirmed && deleteError.Some? ==> outcome == DeleteFailed(deleteError.value)
      ensures confirmed && deleteError.None? && profile.None? ==> outcome == Deleted(None)
      ensures confirmed && deleteError.None? && profile.Some? && user.None? ==> outcome == DeletedWithoutUser
      ensures confirmed && deleteError.None? && profile.Some? && user.Some? ==>
        outcome == Deleted(Some(CounterWrite(user.value.id,
                                             if profile.value.notesCount >= 1 then profile.value.notesCount - 1 else 0)))
      ensures !outcome.Deleted? || user.None? ==> notes == old(notes) && loading == old(loading)
      ensures outcome.Deleted? && user.Some? ==> !loading
      ensures outcome.Deleted? && user.Some? && reloaded.Ok? ==>
        notes == (if reloaded.value.Some? then reloaded.value.value else [])
      ensures outcome.Deleted? && reloaded.Err? ==> notes == old(notes)
    {
      deleted, outcome := DeleteNote(id, confirmed, user, profile, deleteError);
      if outcome.Deleted? {
        LoadNotes(user, reloaded);
      }
    }
  }
}
