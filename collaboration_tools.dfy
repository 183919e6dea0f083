/** The collaboration page: the guards of creating a project, inviting a collaborator and
    adding a comment, with their list prepends, and the join of a project's comments with
    their authors' profiles. Every query and edge-function call is an opaque outcome. */
module CollaborationTools {
  import opened Common
  import opened Text

  datatype Project = Project(
    id: string, title: string, description: string, content: string, documentType: string,
    isPublic: bool, createdAt: string, updatedAt: string, ownerId: string)

  /** The author data attached to a displayed comment. */
  datatype Profile = Profile(displayName: string, email: string)

  const UnknownProfile: Profile := Profile("Unknown User", "")

  /** A row of `project_comments` as selected. */
  datatype CommentRow = CommentRow(
    id: string, content: string, positionStart: Option<int>, positionEnd: Option<int>,
    createdAt: string, userId: string)

  /** A row of `profiles` as selected. */
  datatype ProfileRow = ProfileRow(userId: string, displayName: string, email: string)

  /** A displayed comment. */
  datatype Comment = Comment(
    id: string, content: string, positionStart: Option<int>, positionEnd: Option<int>,
    createdAt: string, profile: Profile)

  function UserIds(rows: seq<CommentRow>): (r: seq<string>)
    ensures |r| == |rows|
    ensures forall i | 0 <= i < |rows| :: r[i] == rows[i].userId
  {
    seq(|rows|, i requires 0 <= i < |rows| => rows[i].userId)
  }

  /** `[...new Set(xs)]`: each value once, at the place of its first occurrence. */
  function Dedupe(xs: seq<string>): (r: seq<string>)
    ensures forall x :: x in r <==> x in xs
    ensures forall i, j | 0 <= i < j < |r| :: r[i] != r[j]
    ensures |r| <= |xs|
  {
    if |xs| == 0 then []
    else
      var d := Dedupe(xs[..|xs| - 1]);
      if xs[|xs| - 1] in d then d else d + [xs[|xs| - 1]]
  }

  /** The first value keeps its place at the front. */
  lemma {:induction false} DedupeKeepsFirst(xs: seq<string>)
    requires |xs| > 0
    ensures Dedupe(xs)[0] == xs[0]
  {
    if |xs| > 1 {
      var init := xs[..|xs| - 1];
      DedupeKeepsFirst(init);
      assert init[0] == xs[0];
    }
  }

  /** Values that are already distinct pass through unchanged. */
  lemma {:induction false} DedupeDistinct(xs: seq<string>)
    requires forall i, j | 0 <= i < j < |xs| :: xs[i] != xs[j]
    ensures Dedupe(xs) == xs
  {
    if |xs| > 0 {
      var init := xs[..|xs| - 1];
      DedupeDistinct(init);
      assert xs[|xs| - 1] !in init;
      assert init + [xs[|xs| - 1]] == xs;
    }
  }

  /** The position of the first occurrence of `x` in `xs`. */
  function FirstIndex(xs: seq<string>, x: string): (k: nat)
    requires x in xs
    ensures k < |xs| && xs[k] == x
    ensures forall i | 0 <= i < k :: xs[i] != x
  {
    if xs[0] == x then 0 else 1 + FirstIndex(xs[1..], x)
  }

  /** Appending never moves the first occurrence of a value already present. */
  lemma FirstIndexSnoc(xs: seq<string>, y: string, x: string)
    requires x in xs
    ensures FirstIndex(xs + [y], x) == FirstIndex(xs, x)
  {
    var k1, k2 := FirstIndex(xs + [y], x), FirstIndex(xs, x);
    assert (xs + [y])[k2] == x;
  }

  /** The values come out in the order of their first occurrences. */
  lemma {:induction false} DedupeOrder(xs: seq<string>)
    ensures forall i, j | 0 <= i < j < |Dedupe(xs)| ::
      FirstIndex(xs, Dedupe(xs)[i]) < FirstIndex(xs, Dedupe(xs)[j])
  {
    if |xs| > 0 {
      var init, y := xs[..|xs| - 1], xs[|xs| - 1];
      assert xs == init + [y];
      var d := Dedupe(init);
      DedupeOrder(init);
      forall i | 0 <= i < |d|
        ensures FirstIndex(xs, d[i]) == FirstIndex(init, d[i]) < |init|
      {
        FirstIndexSnoc(init, y, d[i]);
      }
      if y !in d {
        assert y !in init;
        assert FirstIndex(xs, y) == |init|;
        var r := d + [y];
        forall i, j | 0 <= i < j < |r|
          ensures FirstIndex(xs, r[i]) < FirstIndex(xs, r[j])
        {
          if j == |d| {
            assert r[i] == d[i] && r[j] == y;
          } else {
            assert r[i] == d[i] && r[j] == d[j];
          }
        }
      }
    }
  }

  /** The pairs `profilesMap.set(profile.user_id, profile)` assigns, in row order. */
  function ProfilePairs(rows: seq<ProfileRow>): (r: seq<(string, ProfileRow)>)
    ensures |r| == |rows|
    ensures forall i | 0 <= i < |rows| :: r[i] == (rows[i].userId, rows[i])
  {
    seq(|rows|, i requires 0 <= i < |rows| => (rows[i].userId, rows[i]))
  }

  /** `profilesMap.get(id) || { display_name: 'Unknown User', email: '' }`. */
  function ProfileFor(profiles: map<string, ProfileRow>, userId: string): (p: Profile)
    ensures userId !in profiles ==> p == UnknownProfile
    ensures userId in profiles ==> p == Profile(profiles[userId].displayName, profiles[userId].email)
  {
    if userId in profiles then Profile(profiles[userId].displayName, profiles[userId].email) else UnknownProfile
  }

  function Transform(row: CommentRow, profiles: map<string, ProfileRow>): Comment
  {
    Comment(row.id, row.content, row.positionStart, row.positionEnd, row.createdAt, ProfileFor(profiles, row.userId))
  }

  /** The `map` that combines each comment with its author's profile: same length, same
      order, every comment field kept. */
  function Merge(rows: seq<CommentRow>, profiles: map<string, ProfileRow>): (r: seq<Comment>)
    ensures |r| == |rows|
    ensures forall i | 0 <= i < |rows| ::
      && r[i].id == rows[i].id && r[i].content == rows[i].content
      && r[i].positionStart == rows[i].positionStart && r[i].positionEnd == rows[i].positionEnd
      && r[i].createdAt == rows[i].createdAt
    ensures forall i | 0 <= i < |rows| :: r[i].profile == ProfileFor(profiles, rows[i].userId)
  {
    seq(|rows|, i requires 0 <= i < |rows| => Transform(rows[i], profiles))
  }

  /** The profile map built from the profile query: empty when that query failed. */
  function ProfileMap(reply: Outcome<seq<ProfileRow>>): map<string, ProfileRow>
  {
    if reply.Succeeded? then MapOfPairs(ProfilePairs(reply.data)) else map[]
  }

  /** A commenter with no fetched profile (or when the profile query failed) is shown as
      'Unknown User' with an empty email. */
  lemma UnknownWithoutProfile(rows: seq<CommentRow>, reply: Outcome<seq<ProfileRow>>, i: nat)
    requires i < |rows|
    requires reply.Succeeded? ==> forall k | 0 <= k < |reply.data| :: reply.data[k].userId != rows[i].userId
    ensures Merge(rows, ProfileMap(reply))[i].profile == UnknownProfile
  {
    if reply.Succeeded? {
      var ps := ProfilePairs(reply.data);
      assert forall k | 0 <= k < |ps| :: ps[k].0 != rows[i].userId;
      MapOfPairsKeys(ps, rows[i].userId);
    }
  }

  /** When several profiles share a user id, the comment shows the last of them. */
  lemma LastProfileWins(rows: seq<CommentRow>, profiles: seq<ProfileRow>, i: nat, k: nat)
    requires i < |rows| && k < |profiles|
    requires profiles[k].userId == rows[i].userId
    requires forall j | k < j < |profiles| :: profiles[j].userId != rows[i].userId
    ensures Merge(rows, ProfileMap(Succeeded(profiles)))[i].profile == Profile(profiles[k].displayName, profiles[k].email)
  {
    var ps := ProfilePairs(profiles);
    forall j | k < j < |ps|
      ensures ps[j].0 != ps[k].0
    {
      assert ps[j].0 == profiles[j].userId;
    }
    MapOfPairsLastWins(ps, k);
  }

  /** The page's state. */
  class CollaborationState {
    var projects: seq<Project>
    var selectedProject: Option<Project>
    var comments: seq<Comment>
    var newProjectTitle: string
    var newProjectDescription: string
    var inviteEmail: string
    var inviteRole: string
    var newComment: string

    constructor()
      ensures projects == [] && selectedProject == None && comments == []
      ensures newProjectTitle == "" && newProjectDescription == "" && inviteEmail == ""
      ensures inviteRole == "viewer" && newComment == ""
    {
      projects := [];
      selectedProject := None;
      comments := [];
      newProjectTitle := "";
      newProjectDescription := "";
      inviteEmail := "";
      inviteRole := "viewer";
      newComment := "";
    }

    /** `createProject`: a title blank after trimming is refused without a call; on success
        the new project goes to the front of the list and both inputs are cleared; a failed
        call changes nothing. */
    method CreateProject(reply: Outcome<Project>) returns (called: bool)
      modifies this
      ensures called <==> !IsBlank(old(newProjectTitle))
      ensures called && reply.Succeeded? ==>
        projects == [reply.data] + old(projects) && newProjectTitle == "" && newProjectDescription == ""
      ensures !(called && reply.Succeeded?) ==>
        projects == old(projects) && newProjectTitle == old(newProjectTitle)
        && newProjectDescription == old(newProjectDescription)
      ensures selectedProject == old(selectedProject) && comments == old(comments)
      ensures inviteEmail == old(inviteEmail) && inviteRole == old(inviteRole) && newComment == old(newComment)
    {
      TrimEmptyIffBlank(newProjectTitle);
      if Trim(newProjectTitle) == "" {
        return false;
      }
      called := true;
      if reply.Succeeded? {
        projects := [reply.data] + projects;
        newProjectTitle := "";
        newProjectDescription := "";
      }
    }

    /** `inviteCollaborator`: needs a non-blank email and a selected project; a successful
        invitation clears the email field and nothing else. */
    method InviteCollaborator(callSucceeded: bool) returns (called: bool)
      modifies this
      ensures called <==> !IsBlank(old(inviteEmail)) && old(selectedProject).Some?
      ensures inviteEmail == if called && callSucceeded then "" else old(inviteEmail)
      ensures projects == old(projects) && selectedProject == old(selectedProject) && comments == old(comments)
      ensures newProjectTitle == old(newProjectTitle) && newProjectDescription == old(newProjectDescription)
      ensures inviteRole == old(inviteRole) && newComment == old(newComment)
    {
      TrimEmptyIffBlank(inviteEmail);
      if Trim(inviteEmail) == "" || selectedProject.None? {
        return false;
      }
      called := true;
      if callSucceeded {
        inviteEmail := "";
      }
    }

    /** `addComment`: nothing happens for a blank comment or without a selected project; on
        success the new comment goes to the front and the input is cleared. */
    method AddComment(reply: Outcome<Comment>) returns (called: bool)
      modifies this
      ensures called <==> !IsBlank(old(newComment)) && old(selectedProject).Some?
      ensures called && reply.Succeeded? ==> comments == [reply.data] + old(comments) && newComment == ""
      ensures !(called && reply.Succeeded?) ==> comments == old(comments) && newComment == old(newComment)
      ensures projects == old(projects) && selectedProject == old(selectedProject)
      ensures newProjectTitle == old(newProjectTitle) && newProjectDescription == old(newProjectDescription)
      ensures inviteEmail == old(inviteEmail) && inviteRole == old(inviteRole)
    {
      TrimEmptyIffBlank(newComment);
      if Trim(newComment) == "" || selectedProject.None? {
        return false;
      }
      called := true;
      if reply.Succeeded? {
        comments := [reply.data] + comments;
        newComment := "";
      }
    }

    /** `loadProjectComments`: a failed comment query, or one with no rows, leaves the list
        empty and asks for no profiles; otherwise the distinct commenter ids are requested,
        the profile map is filled row by row, and the merged list replaces the comments. */
    method LoadProjectComments(commentsReply: Outcome<seq<CommentRow>>, profilesReply: Outcome<seq<ProfileRow>>)
      returns (requested: Option<seq<string>>)
      modifies this
      ensures commentsReply.Failed? || |commentsReply.data| == 0 ==> comments == [] && requested == None
      ensures commentsReply.Succeeded? && |commentsReply.data| > 0 ==>
        requested == Some(Dedupe(UserIds(commentsReply.data)))
        && comments == Merge(commentsReply.data, ProfileMap(profilesReply))
      ensures projects == old(projects) && selectedProject == old(selectedProject)
      ensures newProjectTitle == old(newProjectTitle) && newProjectDescription == old(newProjectDescription)
      ensures inviteEmail == old(inviteEmail) && inviteRole == old(inviteRole) && newComment == old(newComment)
    {
      if commentsReply.Failed? || |commentsReply.data| == 0 {
        comments := [];
        return None;
      }
      var rows := commentsReply.data;
      requested := Some(Dedupe(UserIds(rows)));
      var profiles: map<string, ProfileRow> := map[];
      if profilesReply.Succeeded? {
        profiles := FillMap(ProfilePairs(profilesReply.data));
      }
      comments := Merge(rows, profiles);
    }

    /** `selectProject`: the project becomes the selected one and its comments are loaded. */
    method SelectProject(p: Project, commentsReply: Outcome<seq<CommentRow>>, profilesReply: Outcome<seq<ProfileRow>>)
      modifies this
      ensures selectedProject == Some(p)
      ensures commentsReply.Failed? || |commentsReply.data| == 0 ==> comments == []
      ensures commentsReply.Succeeded? && |commentsReply.data| > 0 ==>
        comments == Merge(commentsReply.data, ProfileMap(profilesReply))
      ensures projects == old(projects)
      ensures newProjectTitle == old(newProjectTitle) && newProjectDescription == old(newProjectDescription)
      ensures inviteEmail == old(inviteEmail) && inviteRole == old(inviteRole) && newComment == old(newComment)
    {
      selectedProject := Some(p);
      var _ := LoadProjectComments(commentsReply, profilesReply);
    }
  }
}
