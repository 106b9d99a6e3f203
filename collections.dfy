/**
 * The list logic of the front end's `App` component: the search boxes of the
 * template library and of "My Projects", the functional updates of the two
 * lists after a create or a delete, and the fields that decide which screen
 * is shown. The HTTP calls around them are parameters: their outcome is
 * passed in.
 */
module Library {
  import opened Wrappers
  import opened JsonModel
  import opened Text

  /** An entry of the animations or of the projects list, with the fields the list logic reads. */
  datatype Item = Item(id: string, name: string, animationData: Json)

  /** `Array.prototype.filter`: the elements satisfying `p`, in their original order. */
  function Keep<T>(s: seq<T>, p: T -> bool): seq<T>
  {
    if s == [] then [] else (if p(s[0]) then [s[0]] else []) + Keep(s[1..], p)
  }

  /** Filtering a concatenation filters each part. */
  lemma {:induction false} KeepAppend<T>(a: seq<T>, b: seq<T>, p: T -> bool)
    ensures Keep(a + b, p) == Keep(a, p) + Keep(b, p)
  {
    if a != [] {
      var h: seq<T> := if p(a[0]) then [a[0]] else [];
      assert (a + b)[0] == a[0] && (a + b)[1..] == a[1..] + b;
      assert Keep(a + b, p) == h + Keep(a[1..] + b, p);
      KeepAppend(a[1..], b, p);
      assert Keep(a, p) == h + Keep(a[1..], p);
    } else {
      assert a + b == b;
    }
  }

  /** The filter keeps each value satisfying `p` as often as it occurs, and no other value. */
  lemma {:induction false} KeepCount<T>(s: seq<T>, p: T -> bool, x: T)
    ensures multiset(Keep(s, p))[x] == if p(x) then multiset(s)[x] else 0
  {
    if s != [] {
      assert s == [s[0]] + s[1..];
      KeepCount(s[1..], p, x);
    }
  }

  /** An element is kept exactly when it occurs and satisfies `p`. */
  lemma KeepMember<T>(s: seq<T>, p: T -> bool, x: T)
    ensures x in Keep(s, p) <==> x in s && p(x)
  {
    KeepCount(s, p, x);
    assert x in Keep(s, p) <==> x in multiset(Keep(s, p));
    assert x in s <==> x in multiset(s);
  }

  /** When every element satisfies `p`, the filter returns the list itself. */
  lemma {:induction false} KeepAll<T>(s: seq<T>, p: T -> bool)
    requires forall i :: 0 <= i < |s| ==> p(s[i])
    ensures Keep(s, p) == s
  {
    if s != [] {
      KeepAll(s[1..], p);
    }
  }

  /** Two tests that agree on every element keep the same elements. */
  lemma {:induction false} KeepCongruent<T>(s: seq<T>, p: T -> bool, q: T -> bool)
    requires forall i :: 0 <= i < |s| ==> p(s[i]) == q(s[i])
    ensures Keep(s, p) == Keep(s, q)
  {
    if s != [] {
      KeepCongruent(s[1..], p, q);
    }
  }

  // ---------------------------------------------------------------- search

  /** The search test: the lower-cased name contains the lower-cased term. */
  predicate NameMatches(term: string, it: Item) {
    Contains(Lower(it.name), Lower(term))
  }

  /** The search test as the callback `filter` is given. */
  function MatchesTerm(term: string): Item -> bool {
    it => NameMatches(term, it)
  }

  /** The list a search box shows: the items whose name matches the term, in list order. */
  function Search(items: seq<Item>, term: string): seq<Item> {
    Keep(items, MatchesTerm(term))
  }

  /** Search shows each matching item as often as the list holds it, and nothing else. */
  lemma SearchExactly(items: seq<Item>, term: string, x: Item)
    ensures multiset(Search(items, term))[x] ==
      if Contains(Lower(x.name), Lower(term)) then multiset(items)[x] else 0
    ensures x in Search(items, term) <==> x in items && Contains(Lower(x.name), Lower(term))
  {
    KeepCount(items, MatchesTerm(term), x);
    KeepMember(items, MatchesTerm(term), x);
  }

  /** An empty search box shows the whole list. */
  lemma SearchEmptyTerm(items: seq<Item>)
    ensures Search(items, "") == items
  {
    forall i | 0 <= i < |items| ensures NameMatches("", items[i]) {
      ContainsEmpty(Lower(items[i].name));
    }
    KeepAll(items, MatchesTerm(""));
  }

  /** Search ignores the case of the term (for the ASCII letters). */
  lemma SearchCaseInsensitive(items: seq<Item>, term: string)
    ensures Search(items, Lower(term)) == Search(items, term)
  {
    LowerIdempotent(term);
    KeepCongruent(items, MatchesTerm(Lower(term)), MatchesTerm(term));
  }

  /** Searching a list made of two parts shows the results of each part, in order. */
  lemma SearchAppend(a: seq<Item>, b: seq<Item>, term: string)
    ensures Search(a + b, term) == Search(a, term) + Search(b, term)
  {
    KeepAppend(a, b, MatchesTerm(term));
  }

  // ---------------------------------------------------------------- delete

  /** The delete test as the callback `filter` is given. */
  function OtherId(id: string): Item -> bool {
    (it: Item) => it.id != id
  }

  /** The list after a delete: every entry whose id differs, in order. */
  function RemoveById(items: seq<Item>, id: string): seq<Item> {
    Keep(items, OtherId(id))
  }

  /** Delete drops every entry with the id and keeps every other entry as often as it occurred. */
  lemma RemoveByIdExactly(items: seq<Item>, id: string, x: Item)
    ensures multiset(RemoveById(items, id))[x] == if x.id == id then 0 else multiset(items)[x]
    ensures x in RemoveById(items, id) <==> x in items && x.id != id
  {
    KeepCount(items, OtherId(id), x);
    KeepMember(items, OtherId(id), x);
  }

  /** Deleting an id the list does not hold leaves the list as it is. */
  lemma RemoveAbsent(items: seq<Item>, id: string)
    requires forall i :: 0 <= i < |items| ==> items[i].id != id
    ensures RemoveById(items, id) == items
  {
    KeepAll(items, OtherId(id));
  }

  /** Deleting twice is deleting once. */
  lemma RemoveIdempotent(items: seq<Item>, id: string)
    ensures RemoveById(RemoveById(items, id), id) == RemoveById(items, id)
  {
    var r := RemoveById(items, id);
    forall i | 0 <= i < |r| ensures r[i].id != id {
      RemoveByIdExactly(items, id, r[i]);
    }
    RemoveAbsent(r, id);
  }

  /** Deleting the entry just added gives back the list as it was, when its id was new. */
  lemma RemoveAfterAppend(items: seq<Item>, created: Item)
    requires forall i :: 0 <= i < |items| ==> items[i].id != created.id
    ensures RemoveById(items + [created], created.id) == items
  {
    KeepAppend(items, [created], OtherId(created.id));
    RemoveAbsent(items, created.id);
  }

  // ---------------------------------------------------------------- the App component

  /** The sidebar tabs. */
  datatype Tab = Explore | LibraryTab | Upload | Projects | Exports | Brand

  /** The state of the `App` component. */
  class App {
    var activeTab: Tab
    var animations: seq<Item>
    var projects: seq<Item>
    var selected: Option<Item>
    var isEditorOpen: bool
    var editingProject: bool

    /** The editor is shown exactly when an item is selected, and only an open editor edits a project. */
    predicate Valid()
      reads this
    {
      (isEditorOpen <==> selected.Some?) && (editingProject ==> isEditorOpen)
    }

    /** The item the editor shows, and whether it is a project, when the editor replaces the tabs. */
    function Showing(): (r: Option<(Item, bool)>)
      reads this
      requires Valid()
      ensures r.Some? <==> isEditorOpen
      ensures r.Some? ==> r.value == (selected.value, editingProject)
    {
      if isEditorOpen && selected.Some? then Some((selected.value, editingProject)) else None
    }

    constructor()
      ensures Valid()
      ensures activeTab == Explore && animations == [] && projects == []
      ensures selected == None && !isEditorOpen && !editingProject
    {
      activeTab := Explore;
      animations := [];
      projects := [];
      selected := None;
      isEditorOpen := false;
      editingProject := false;
    }

    /**
     * The initial load: both lists when the animations request succeeds, a
     * failed projects request counting as an empty list; nothing when the
     * animations request fails.
     */
    method Load(animationsRes: Option<seq<Item>>, projectsRes: Option<seq<Item>>)
      requires Valid()
      modifies this
      ensures Valid()
      ensures animationsRes.Some? ==>
        animations == animationsRes.value && projects == projectsRes.GetOr([])
      ensures animationsRes.None? ==> animations == old(animations) && projects == old(projects)
      ensures activeTab == old(activeTab) && selected == old(selected)
      ensures isEditorOpen == old(isEditorOpen) && editingProject == old(editingProject)
    {
      if animationsRes.Some? {
        animations := animationsRes.value;
        projects := projectsRes.GetOr([]);
      }
    }

    /** An upload: the created record is appended and the library tab shown; a failed request changes nothing. */
    method UploadAnimation(created: Option<Item>)
      requires Valid()
      modifies this
      ensures Valid()
      ensures created.Some? ==> animations == old(animations) + [created.value] && activeTab == LibraryTab
      ensures created.None? ==> animations == old(animations) && activeTab == old(activeTab)
      ensures projects == old(projects) && selected == old(selected)
      ensures isEditorOpen == old(isEditorOpen) && editingProject == old(editingProject)
    {
      if created.Some? {
        animations := animations + [created.value];
        activeTab := LibraryTab;
      }
    }

    /** A delete of an animation: when the server accepted it, every entry with the id is dropped. */
    method DeleteAnimation(id: string, accepted: bool)
      requires Valid()
      modifies this
      ensures Valid()
      ensures animations == if accepted then RemoveById(old(animations), id) else old(animations)
      ensures activeTab == old(activeTab) && projects == old(projects) && selected == old(selected)
      ensures isEditorOpen == old(isEditorOpen) && editingProject == old(editingProject)
    {
      if accepted {
        animations := RemoveById(animations, id);
      }
    }

    /** Saving a project: the created record is appended and the projects tab shown; a failed request changes nothing. */
    method SaveProject(created: Option<Item>)
      requires Valid()
      modifies this
      ensures Valid()
      ensures created.Some? ==> projects == old(projects) + [created.value] && activeTab == Projects
      ensures created.None? ==> projects == old(projects) && activeTab == old(activeTab)
      ensures animations == old(animations) && selected == old(selected)
      ensures isEditorOpen == old(isEditorOpen) && editingProject == old(editingProject)
    {
      if created.Some? {
        projects := projects + [created.value];
        activeTab := Projects;
      }
    }

    /** A delete of a project: when the server accepted it, every entry with the id is dropped. */
    method DeleteProject(id: string, accepted: bool)
      requires Valid()
      modifies this
      ensures Valid()
      ensures projects == if accepted then RemoveById(old(projects), id) else old(projects)
      ensures activeTab == old(activeTab) && animations == old(animations) && selected == old(selected)
      ensures isEditorOpen == old(isEditorOpen) && editingProject == old(editingProject)
    {
      if accepted {
        projects := RemoveById(projects, id);
      }
    }

    /** Opening the editor on a template or on a project. */
    method OpenEditor(item: Item, isProject: bool)
      requires Valid()
      modifies this
      ensures Valid()
      ensures Showing() == Some((item, isProject))
      ensures activeTab == old(activeTab) && animations == old(animations) && projects == old(projects)
    {
      selected := Some(item);
      editingProject := isProject;
      isEditorOpen := true;
    }

    /** Closing the editor brings the tabs back, as they were. */
    method CloseEditor()
      requires Valid()
      modifies this
      ensures Valid()
      ensures Showing() == None && selected == None && !editingProject
      ensures activeTab == old(activeTab) && animations == old(animations) && projects == old(projects)
    {
      isEditorOpen := false;
      selected := None;
      editingProject := false;
    }
  }
}
