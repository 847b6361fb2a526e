/** The dashboard: counts of the signed-in user's projects and threads,
    the five most recently updated projects with a name search, and the
    form that creates a project. */
module Dashboard {
  import opened Js
  import opened Strings
  import opened Lists
  import opened Store
  import ProjectsApi

  datatype Analytics = Analytics(totalProjects: nat, totalThreads: nat, activeProjects: nat)

  /** A recent project: `{ ...data, id: doc.id }`. The id is spread last,
      so here the document id wins over a data field named `id`. */
  datatype RecentProject = RecentProject(id: string, data: ProjectDoc)

  const NotSignedIn := "You must be logged in to create a project."
  const FillAllFields := "Please fill in all fields."

  /** The callback that keeps a project whose status is exactly 'active'. */
  function ActiveKeep(): ((string, ProjectDoc)) -> bool {
    (d: (string, ProjectDoc)) => d.1.status == Some("active")
  }

  /** `docs.filter(status === 'active').length`. */
  function ActiveCount(owned: seq<(string, ProjectDoc)>): (n: nat)
    ensures n <= |owned|
    ensures n == |owned| <==> forall k :: 0 <= k < |owned| ==> owned[k].1.status == Some("active")
    ensures n == 0 <==> forall k :: 0 <= k < |owned| ==> owned[k].1.status != Some("active")
    ensures n == |set k: nat | k < |owned| && owned[k].1.status == Some("active")|
  {
    FilterCountsPositions(owned, ActiveKeep());
    assert KeptPositions(owned, ActiveKeep()) == set k: nat | k < |owned| && owned[k].1.status == Some("active");
    FilterLength(owned, ActiveKeep());
    FilterEmpty(owned, ActiveKeep());
    |Filter(owned, ActiveKeep())|
  }

  /** The analytics of the owner's project and thread snapshots. */
  function Analyze(owned: seq<(string, ProjectDoc)>, threads: seq<(string, ThreadDoc)>): (a: Analytics)
    ensures a.totalProjects == |owned| && a.totalThreads == |threads|
    ensures a.activeProjects <= a.totalProjects
    ensures a.activeProjects == ActiveCount(owned)
  {
    Analytics(|owned|, |threads|, ActiveCount(owned))
  }

  /** The store's order on `updatedAt`: `rank` gives each timestamp its
      position in time. Documents without the field never reach the key,
      because the query leaves them out. */
  function UpdatedRank(rank: Timestamp -> int): ((string, ProjectDoc)) -> int {
    (d: (string, ProjectDoc)) => if d.1.updatedAt.Some? then rank(d.1.updatedAt.value) else 0
  }

  function HasUpdatedKeep(): ((string, ProjectDoc)) -> bool {
    (d: (string, ProjectDoc)) => d.1.updatedAt.Some?
  }

  /** The owner's projects that have `updatedAt`, newest first. */
  function ByUpdate(owned: seq<(string, ProjectDoc)>, rank: Timestamp -> int): (s: seq<(string, ProjectDoc)>)
    ensures multiset(s) == multiset(Filter(owned, HasUpdatedKeep()))
    ensures Sorted(s, UpdatedRank(rank), true)
  {
    SortBy(Filter(owned, HasUpdatedKeep()), UpdatedRank(rank), true)
  }

  /** The query `orderBy('updatedAt', 'desc'), limit(5)` over the owner's
      projects. */
  function RecentQuery(owned: seq<(string, ProjectDoc)>, rank: Timestamp -> int): (r: seq<(string, ProjectDoc)>)
    ensures |r| <= 5
    ensures Sorted(r, UpdatedRank(rank), true)
    ensures forall k :: 0 <= k < |r| ==> r[k] in owned && r[k].1.updatedAt.Some?
    ensures multiset(r) <= multiset(Filter(owned, HasUpdatedKeep()))
    ensures |r| == 5 || multiset(r) == multiset(Filter(owned, HasUpdatedKeep()))
  {
    var s := ByUpdate(owned, rank);
    TakeSorted(s, 5, UpdatedRank(rank), true);
    RecentMembers(owned, rank);
    assert s == Take(s, 5) + s[|Take(s, 5)|..];
    Take(s, 5)
  }

  /** Every dated project of the owner, and only those, is in the
      ordering. */
  lemma RecentMembers(owned: seq<(string, ProjectDoc)>, rank: Timestamp -> int)
    ensures forall k :: 0 <= k < |Take(ByUpdate(owned, rank), 5)| ==>
              Take(ByUpdate(owned, rank), 5)[k] in owned && Take(ByUpdate(owned, rank), 5)[k].1.updatedAt.Some?
  {
    var s := ByUpdate(owned, rank);
    var r := Take(s, 5);
    SameMembers(s, Filter(owned, HasUpdatedKeep()));
    forall k | 0 <= k < |r| ensures r[k] in owned && r[k].1.updatedAt.Some? {
      assert r[k] == s[k];
      FilterMember(owned, HasUpdatedKeep(), r[k]);
    }
  }

  /** The recent projects are the newest ones: a dated project left out
      is no newer than any listed one, and fewer than five are listed
      only when no dated project is left out. */
  lemma RecentAreNewest(owned: seq<(string, ProjectDoc)>, rank: Timestamp -> int, x: (string, ProjectDoc))
    requires x in owned && x.1.updatedAt.Some?
    requires x !in RecentQuery(owned, rank)
    ensures |RecentQuery(owned, rank)| == 5
    ensures forall k :: 0 <= k < 5 ==>
              UpdatedRank(rank)(RecentQuery(owned, rank)[k]) >= UpdatedRank(rank)(x)
  {
    var s := ByUpdate(owned, rank);
    var r := RecentQuery(owned, rank);
    FilterMember(owned, HasUpdatedKeep(), x);
    SameMembers(s, Filter(owned, HasUpdatedKeep()));
    var j :| 0 <= j < |s| && s[j] == x;
    assert j >= |r|;
    forall k | 0 <= k < 5 ensures UpdatedRank(rank)(r[k]) >= UpdatedRank(rank)(x) {
      assert r[k] == s[k];
      assert InOrder(UpdatedRank(rank), true, s[k], s[j]);
    }
  }

  function RecentRows(docs: seq<(string, ProjectDoc)>): (rows: seq<RecentProject>)
    ensures |rows| == |docs|
    ensures forall k :: 0 <= k < |docs| ==> rows[k] == RecentProject(docs[k].0, docs[k].1)
  {
    if docs == [] then [] else [RecentProject(docs[0].0, docs[0].1)] + RecentRows(docs[1..])
  }

  /** Both names are present; the search reads them without a guard. */
  predicate Named(p: RecentProject) {
    p.data.projectName.Some? && p.data.facilityName.Some?
  }

  /** The lower-cased project name or facility name contains the
      lower-cased query. */
  predicate Shows(p: RecentProject, searchQuery: string, lower: string -> string)
    requires Named(p)
  {
    Contains(lower(p.data.projectName.value), lower(searchQuery))
    || Contains(lower(p.data.facilityName.value), lower(searchQuery))
  }

  function SearchKeep(searchQuery: string, lower: string -> string): RecentProject -> bool {
    (p: RecentProject) => Named(p) && Shows(p, searchQuery, lower)
  }

  /** The recent projects the search shows, in order. */
  function Visible(recent: seq<RecentProject>, searchQuery: string, lower: string -> string)
    : (r: seq<RecentProject>)
    requires forall k :: 0 <= k < |recent| ==> Named(recent[k])
    ensures IsSubsequence(r, recent)
    ensures forall k :: 0 <= k < |recent| ==> (recent[k] in r <==> Shows(recent[k], searchQuery, lower))
    ensures forall x :: multiset(r)[x] ==
              if Named(x) && Shows(x, searchQuery, lower) then multiset(recent)[x] else 0
  {
    FilterIsSubsequence(recent, SearchKeep(searchQuery, lower));
    FilterMultiplicity(recent, SearchKeep(searchQuery, lower));
    forall k | 0 <= k < |recent|
      ensures recent[k] in Filter(recent, SearchKeep(searchQuery, lower)) <==> Shows(recent[k], searchQuery, lower)
    {
      FilterMember(recent, SearchKeep(searchQuery, lower), recent[k]);
    }
    Filter(recent, SearchKeep(searchQuery, lower))
  }

  /** An empty query shows every recent project. */
  lemma EmptyQueryShowsAll(recent: seq<RecentProject>, lower: string -> string)
    requires forall k :: 0 <= k < |recent| ==> Named(recent[k])
    requires lower("") == ""
    ensures Visible(recent, "", lower) == recent
  {
    FilterKeepsAll(recent, SearchKeep("", lower));
  }

  /** Neither name is blank after trimming. */
  predicate Filled(projectName: string, facilityName: string) {
    Trim(projectName) != "" && Trim(facilityName) != ""
  }

  /** The document the form creates. */
  function NewProject(projectName: string, facilityName: string, uid: string): (p: ProjectDoc)
    ensures p.projectName == Some(projectName) && p.facilityName == Some(facilityName)
    ensures p.ownerId == Some(uid) && p.status == Some("active")
    ensures p.priority.None? && p.id.None?
    ensures p.createdAt == Some(ServerTime) && p.updatedAt == Some(ServerTime)
  {
    ProjectDoc(Some(projectName), Some(facilityName), Some(uid), Some("active"),
               None, Some(ServerTime), Some(ServerTime), None)
  }

  /** The form stores the same document the projects route stores for
      the same names and owner. */
  lemma SameRecordAsRoute(projectName: string, facilityName: string, uid: string)
    requires Filled(projectName, facilityName) && uid != ""
    ensures NewProject(projectName, facilityName, uid)
            == ProjectsApi.NewProject(ProjectsApi.CreateRequest(Some(projectName), Some(facilityName), Some(uid)))
  {
  }

  class Page {
    var analytics: Option<Analytics>
    var recentProjects: seq<RecentProject>
    var projectName: string
    var facilityName: string
    var creatingProject: bool
    var error: Option<string>
    var searchQuery: string
    var modalIsOpen: bool
    /** Every route the router was sent to, in order. */
    var navigations: seq<string>

    constructor ()
      ensures analytics.None? && recentProjects == [] && projectName == "" && facilityName == ""
      ensures !creatingProject && error.None? && searchQuery == "" && !modalIsOpen && navigations == []
    {
      analytics, recentProjects := None, [];
      projectName, facilityName, creatingProject := "", "", false;
      error, searchQuery, modalIsOpen, navigations := None, "", false, [];
    }

    /** The loading effect. `verified` is the user record's `verified`
        field (`None` when there is no record or no field); `owned` and
        `threads` are the owner queries over the two collections. */
    method Load(loading: bool, signedIn: bool, verified: Option<bool>,
                owned: seq<(string, ProjectDoc)>, threads: seq<(string, ThreadDoc)>, rank: Timestamp -> int)
      modifies this`analytics, this`recentProjects, this`navigations
      ensures loading || !signedIn ==>
                analytics == old(analytics) && recentProjects == old(recentProjects) && navigations == old(navigations)
      ensures !loading && signedIn && verified == Some(false) ==>
                && analytics == old(analytics) && recentProjects == old(recentProjects)
                && navigations == old(navigations) + ["/verify"]
      ensures !loading && signedIn && verified != Some(false) ==>
                && analytics == Some(Analyze(owned, threads))
                && recentProjects == RecentRows(RecentQuery(owned, rank))
                && navigations == old(navigations)
    {
      if loading || !signedIn {
        return;
      }
      if verified == Some(false) {
        navigations := navigations + ["/verify"];
        return;
      }
      var totalProjects := |owned|;
      var activeProjectsCount := ActiveCount(owned);
      var totalThreads := |threads|;
      var recent := RecentRows(RecentQuery(owned, rank));
      analytics := Some(Analytics(totalProjects, totalThreads, activeProjectsCount));
      recentProjects := recent;
    }

    /** `handleCreateProject`. `uid` is the signed-in user's id, `newId`
        the id the store assigns and `fault` the store's error, if any. */
    method HandleCreateProject(db: Firestore, uid: Option<string>, newId: string, fault: Option<string>)
      modifies this`projectName, this`facilityName, this`creatingProject, this`error, this`modalIsOpen,
               this`navigations, db`projects
      ensures uid.None? ==>
                && error == Some(NotSignedIn) && db.projects == old(db.projects)
                && projectName == old(projectName) && facilityName == old(facilityName)
                && creatingProject == old(creatingProject) && modalIsOpen == old(modalIsOpen)
                && navigations == old(navigations)
      ensures uid.Some? && !Filled(old(projectName), old(facilityName)) ==>
                && error == Some(FillAllFields) && db.projects == old(db.projects)
                && projectName == old(projectName) && facilityName == old(facilityName)
                && creatingProject == old(creatingProject) && modalIsOpen == old(modalIsOpen)
                && navigations == old(navigations)
      ensures uid.Some? && Filled(old(projectName), old(facilityName)) && fault.None? ==>
                && db.projects == old(db.projects)[newId := NewProject(old(projectName), old(facilityName), uid.value)]
                && projectName == "" && facilityName == "" && !creatingProject && !modalIsOpen
                && error.None? && navigations == old(navigations) + ["/projects/" + newId]
      ensures uid.Some? && Filled(old(projectName), old(facilityName)) && fault.Some? ==>
                && db.projects == old(db.projects) && error == fault && !creatingProject
                && projectName == old(projectName) && facilityName == old(facilityName)
                && modalIsOpen == old(modalIsOpen) && navigations == old(navigations)
    {
      if uid.None? {
        error := Some(NotSignedIn);
        return;
      }
      if !Filled(projectName, facilityName) {
        error := Some(FillAllFields);
        return;
      }
      creatingProject := true;
      error := None;
      if fault.Some? {
        error := fault;
        creatingProject := false;
        return;
      }
      db.projects := db.projects[newId := NewProject(projectName, facilityName, uid.value)];
      projectName := "";
      facilityName := "";
      creatingProject := false;
      modalIsOpen := false;
      navigations := navigations + ["/projects/" + newId];
    }
  }
}
