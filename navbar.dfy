/** The navigation bar: the avatar initials computed from the user's name,
    and the create-project dialog (`projectName`, `isModalOpen`, `isLoading`). */
module Navbar {
  import opened Kanban
  import opened Text

  /** The `user` prop; every field is optional. */
  datatype User = User(userId: Option<string>, name: Option<string>, email: Option<string>)

  /** The default the component uses when no `user` prop is passed. */
  const DefaultUser := User(Some(""), Some("John Doe"), Some("john@example.com"))

  function EffectiveUser(user: Option<User>): User
  {
    if user.Some? then user.value else DefaultUser
  }

  /** Splitting on the single space character: the pieces between spaces,
      empty ones included, as `split(" ")` returns them. */
  function Split(s: string): (pieces: seq<string>)
    ensures |pieces| >= 1
    ensures forall i, j :: 0 <= i < |pieces| && 0 <= j < |pieces[i]| ==> pieces[i][j] != ' '
  {
    if s == [] then [""]
    else
      var rest := Split(s[1..]);
      if s[0] == ' ' then [""] + rest
      else [[s[0]] + rest[0]] + rest[1..]
  }

  /** The pieces glued back together with one space between neighbours. */
  function JoinWithSpace(pieces: seq<string>): string
  {
    if |pieces| <= 1 then (if pieces == [] then "" else pieces[0])
    else pieces[0] + " " + JoinWithSpace(pieces[1..])
  }

  /** The split loses nothing: joining the pieces back gives the name. */
  lemma {:induction false} SplitJoin(s: string)
    ensures JoinWithSpace(Split(s)) == s
  {
    if s != [] {
      SplitJoin(s[1..]);
      var rest := Split(s[1..]);
      if s[0] == ' ' {
        assert ([""] + rest)[1..] == rest;
        assert s == [' '] + s[1..];
      } else {
        var pieces := [[s[0]] + rest[0]] + rest[1..];
        assert pieces[1..] == rest[1..];
        if |rest| > 1 {
          assert JoinWithSpace(rest) == rest[0] + " " + JoinWithSpace(rest[1..]);
        }
        assert s == [s[0]] + s[1..];
      }
    }
  }

  /** The first character of each non-empty piece, concatenated; an empty
      piece contributes nothing, since its missing first character joins as
      the empty string. */
  function Heads(pieces: seq<string>): string
  {
    if pieces == [] then ""
    else (if pieces[0] == "" then "" else [pieces[0][0]]) + Heads(pieces[1..])
  }

  /** The characters of `s` that begin a word: not a space, and first in `s`
      or right after a space (`afterSpace` says whether the character before `s` was one). */
  function StartsFrom(s: string, afterSpace: bool): string
  {
    if s == [] then ""
    else (if s[0] != ' ' && afterSpace then [s[0]] else "") + StartsFrom(s[1..], s[0] == ' ')
  }

  function WordStarts(s: string): string
  {
    StartsFrom(s, true)
  }

  /** The first characters of the pieces of the split are the word starts of
      the name; the pieces after the first one contribute the word starts
      that follow a space. */
  lemma {:induction false} HeadsOfSplit(s: string)
    ensures Heads(Split(s)) == WordStarts(s)
    ensures Heads(Split(s)[1..]) == StartsFrom(s, false)
  {
    if s != [] {
      HeadsOfSplit(s[1..]);
      var rest := Split(s[1..]);
      if s[0] == ' ' {
        assert ([""] + rest)[1..] == rest;
      } else {
        var pieces := [[s[0]] + rest[0]] + rest[1..];
        assert pieces[1..] == rest[1..];
      }
    }
  }

  predicate AllSpaces(s: string)
  {
    forall i :: 0 <= i < |s| ==> s[i] == ' '
  }

  /** A name has no word starts exactly when it is empty or all spaces. */
  lemma {:induction false} NoWordStarts(s: string)
    ensures WordStarts(s) == "" <==> AllSpaces(s)
  {
    if s != [] {
      NoWordStarts(s[1..]);
      if s[0] == ' ' {
        assert AllSpaces(s) <==> AllSpaces(s[1..]) by {
          if AllSpaces(s[1..]) {
            forall i | 0 <= i < |s| ensures s[i] == ' ' {
              if i > 0 { assert s[i] == s[1..][i - 1]; }
            }
          }
        }
      }
    }
  }

  /** `toUpperCase` on the letters a–z; every other character is kept. */
  function Upper(s: string): (r: string)
    ensures |r| == |s|
    ensures forall i :: 0 <= i < |s| ==>
      r[i] == (if 'a' <= s[i] <= 'z' then (s[i] as int - 32) as char else s[i])
  {
    if s == [] then ""
    else [if 'a' <= s[0] <= 'z' then (s[0] as int - 32) as char else s[0]] + Upper(s[1..])
  }

  /** The first two characters, or the whole string when it is shorter. */
  function Take2(s: string): string
  {
    if |s| <= 2 then s else s[..2]
  }

  /** `initials`: the name (or "" without one) is split on spaces, the first
      character of each piece is kept, the first two of those are
      upper-cased, and "U" stands in when nothing is left. */
  function Initials(user: Option<User>): string
  {
    var name := EffectiveUser(user).name;
    var letters := Upper(Take2(Heads(Split(if name.Some? then name.value else ""))));
    if letters == "" then "U" else letters
  }

  /** The initials are the first two word starts of the name, upper-cased, and
      "U" when there is none: when the name is missing, empty or only spaces.
      They are always one or two characters long. */
  lemma InitialsSpec(user: Option<User>)
    ensures var name := EffectiveUser(user).name;
      var n := if name.Some? then name.value else "";
      var r := Initials(user);
      && 1 <= |r| <= 2
      && (AllSpaces(n) ==> r == "U")
      && (!AllSpaces(n) ==> r == Upper(Take2(WordStarts(n))))
      && (user.Some? && user.value.name.None? ==> r == "U")
  {
    var name := EffectiveUser(user).name;
    var n := if name.Some? then name.value else "";
    HeadsOfSplit(n);
    NoWordStarts(n);
  }

  /** What `handleAddProject` sends: nothing when the trimmed name is empty
      or the user id is missing; otherwise `createProject` with the trimmed
      name and `invitedUsers` set to the user's id. */
  function AddProjectRequest(projectName: string, user: Option<User>): (r: Option<Request>)
    ensures r.None? <==> Blank(projectName) || !Truthy(EffectiveUser(user).userId)
    ensures r.Some? ==> r.value.CreateProject? && r.value.name == Trim(projectName) && r.value.name != ""
                        && r.value.invitedUsers == EffectiveUser(user).userId.value
  {
    TrimEmptyIffBlank(projectName);
    var userId := EffectiveUser(user).userId;
    if Trim(projectName) == "" || !Truthy(userId) then None
    else Some(CreateProject(Trim(projectName), userId.value))
  }

  /** Without a `user` prop the default user's id is empty, so no project can be created. */
  lemma NoUserNoProject(projectName: string)
    ensures AddProjectRequest(projectName, None).None?
  {
  }

  /** The create-project dialog's state. */
  class NavbarForm {
    var isModalOpen: bool
    var projectName: string
    var isLoading: bool

    constructor ()
      ensures !isModalOpen && projectName == "" && !isLoading
    {
      isModalOpen := false;
      projectName := "";
      isLoading := false;
    }

    /** The submit button's `disabled`: a blank name, or a request in flight. */
    predicate SubmitDisabled()
      reads this
      ensures SubmitDisabled() <==> Blank(projectName) || isLoading
    {
      TrimEmptyIffBlank(projectName);
      Trim(projectName) == "" || isLoading
    }

    /** `handleAddProject`. Past the guard: one `createProject` call; a success
        envelope clears the name, closes the dialog and runs `onAddProject`
        once when it is given; a failure keeps both and raises an alert.
        `isLoading` ends false either way. The guard changes nothing. */
    method AddProject(user: Option<User>, reply: Envelope, hasOnAddProject: bool)
      returns (calls: seq<Request>, onAddProjectRuns: nat, alerted: bool)
      modifies this
      ensures AddProjectRequest(old(projectName), user).None? ==>
        && calls == [] && onAddProjectRuns == 0 && !alerted
        && projectName == old(projectName) && isModalOpen == old(isModalOpen) && isLoading == old(isLoading)
      ensures AddProjectRequest(old(projectName), user).Some? ==>
        && calls == [AddProjectRequest(old(projectName), user).value]
        && !isLoading
        && (reply.success ==> projectName == "" && !isModalOpen && onAddProjectRuns == (if hasOnAddProject then 1 else 0) && !alerted)
        && (!reply.success ==> projectName == old(projectName) && isModalOpen == old(isModalOpen)
                               && onAddProjectRuns == 0 && alerted)
    {
      calls, onAddProjectRuns, alerted := [], 0, false;
      var request := AddProjectRequest(projectName, user);
      if request.None? {
        return;
      }
      isLoading := true;
      calls := [request.value];
      if reply.success {
        projectName := "";
        isModalOpen := false;
        if hasOnAddProject {
          onAddProjectRuns := 1;
        }
      } else {
        alerted := true;
      }
      isLoading := false;
    }
  }
}
