/**
 * The navigation reducer (src/reducers.js): a redux-loop reducer, that is a
 * pure function from a state and an action to a new state and the effects to
 * run, with the effects returned as data.
 *
 * The filesystem and fs.realpath are inputs (an Env); a Cmd.run is settled by
 * Settle, which gives the action its success or failure creator dispatches.
 */
module Reducers {
  import opened Wrappers
  import opened JsBuiltins

  // ---------------------------------------------------------------------------
  // The outside world
  // ---------------------------------------------------------------------------

  /** What fs.stat, fs.readdir and fs.readFile find at a path. */
  datatype Node =
    | Dir(names: seq<string>)
    | File(text: string)
    | Unreadable  // stat succeeds, readdir or readFile fails for lack of permission

  datatype FsError =
    | NoEntry(path: string)       // the path does not exist
    | AccessDenied(path: string)  // readdir or readFile refused
    | TypeError                   // an argument was undefined

  /** The filesystem, and the result of fs.realpath for every path that resolves. */
  datatype Env = Env(fs: map<string, Node>, realpath: map<string, string>)

  // ---------------------------------------------------------------------------
  // State, actions and effects
  // ---------------------------------------------------------------------------

  /** A loaded pane: a directory's names as readdir returns them, or a file's text. */
  datatype Content = Names(names: seq<string>) | Text(text: string)

  /** The state keys that getContents may be asked to fill. */
  datatype ContentKey = CurrentContent | ParentContent | ChildContent

  /** The store's state; `None` is a key that is absent (undefined). */
  datatype State = State(
    currentPath: Option<string>,
    parentPath: Option<string>,
    childPath: Option<string>,
    currentContent: Option<Content>,
    parentContent: Option<Content>,
    childContent: Option<Content>,
    currentSelected: Option<int>)

  const InitialState: State := State(None, None, None, None, None, None, Some(0))

  datatype ContentsArgs = ContentsArgs(path: string, key: ContentKey)

  /** The object `{[key]: content}` that getContents resolves to. */
  datatype ContentsPayload = ContentsPayload(key: ContentKey, content: Content)

  datatype PathArgs = PathArgs(path: Option<string>, dir: Option<Content>, selected: Option<int>)

  datatype PathPayload = PathPayload(currentPath: string, parentPath: string, childPath: string)

  /** The type strings of the actions the reducer module declares (its createAction calls). */
  const DeclaredTypes: set<string> :=
    {"INIT", "INIT_SUCCESS", "INIT_FAILURE", "GET_CONTENTS_SUCCESS", "GET_CONTENTS_FAILURE", "GET_PATH_SUCCESS", "GET_PATH_FAILURE"}

  /** The type string of an action the reducer module does not declare. */
  type OtherType = t: string | t !in DeclaredTypes witness ""

  /** The actions the reducer module declares; Unknown stands for every other action type. */
  datatype Action =
    | Init(path: string)
    | InitSuccess
    | InitFailure(error: FsError)
    | GetContentsSuccess(contents: ContentsPayload)
    | GetContentsFailure(error: FsError)
    | GetPathSuccess(paths: PathPayload)
    | GetPathFailure(error: FsError)
    | Unknown(actionType: OtherType)

  /** The asynchronous functions a Cmd.run may call. */
  datatype Task = LoadContents(contentsArgs: ContentsArgs) | ResolvePaths(pathArgs: PathArgs)

  /** redux-loop commands: Cmd.none, Cmd.run, Cmd.action and Cmd.list. */
  datatype Cmd =
    | NoCmd
    | Run(task: Task)
    | Dispatch(action: Action)
    | List(cmds: seq<Cmd>, sequence: bool)

  /** redux-loop's `loop(state, cmd)`; a handler that returns a bare state returns it with NoCmd. */
  datatype Loop = Loop(state: State, cmd: Cmd)

  // ---------------------------------------------------------------------------
  // Which fields an action changes
  // ---------------------------------------------------------------------------

  datatype Field =
    | CurrentPathField
    | ParentPathField
    | ChildPathField
    | ContentField(key: ContentKey)
    | CurrentSelectedField

  datatype FieldValue =
    | PathValue(path: Option<string>)
    | ContentValue(content: Option<Content>)
    | SelectedValue(selected: Option<int>)

  function Slot(s: State, key: ContentKey): Option<Content>
  {
    match key
    case CurrentContent => s.currentContent
    case ParentContent => s.parentContent
    case ChildContent => s.childContent
  }

  function Get(s: State, f: Field): FieldValue
  {
    match f
    case CurrentPathField => PathValue(s.currentPath)
    case ParentPathField => PathValue(s.parentPath)
    case ChildPathField => PathValue(s.childPath)
    case ContentField(key) => ContentValue(Slot(s, key))
    case CurrentSelectedField => SelectedValue(s.currentSelected)
  }

  /** `t` agrees with `s` on every field outside `changed`. */
  ghost predicate OnlyChanged(s: State, t: State, changed: set<Field>)
  {
    forall f :: f !in changed ==> Get(t, f) == Get(s, f)
  }

  // ---------------------------------------------------------------------------
  // getContents
  // ---------------------------------------------------------------------------

  /**
   * getContents({path, key}): stat the path, then read the directory or the
   * file (as UTF-8), and resolve to an object whose one key is `key`.
   */
  function GetContents(fs: map<string, Node>, args: ContentsArgs): (r: Result<ContentsPayload, FsError>)
    ensures r.Success? ==> r.value.key == args.key
    ensures r.Failure? <==> args.path !in fs || fs[args.path].Unreadable?
    ensures args.path !in fs ==> r == Failure(NoEntry(args.path))
    ensures r.Success? && fs[args.path].Dir? ==> r.value.content == Names(fs[args.path].names)
    ensures r.Success? && fs[args.path].File? ==> r.value.content == Text(fs[args.path].text)
  {
    if args.path !in fs then Failure(NoEntry(args.path))
    else
      match fs[args.path]
      case Dir(names) => Success(ContentsPayload(args.key, Names(names)))
      case File(text) => Success(ContentsPayload(args.key, Text(text)))
      case Unreadable => Failure(AccessDenied(args.path))
  }

  // ---------------------------------------------------------------------------
  // getPath
  // ---------------------------------------------------------------------------

  /** `r` is `p` with its last '/'-separated segment and that '/' removed ("" when `p` has no '/'). */
  predicate DropsLastSegment(p: string, r: string)
  {
    && ('/' !in p ==> r == "")
    && ('/' in p ==> |r| < |p| && r == p[..|r|] && p[|r|] == '/' && '/' !in p[|r| + 1..])
  }

  /** The string part of getParentPath: `p.split("/").slice(0, -1).join("/")` of the resolved path. */
  function ParentPathOf(resolved: string): string
  {
    Join(SliceTo(Split(resolved), -1))
  }

  lemma {:induction false} ParentPathDropsLastSegment(p: string)
    ensures DropsLastSegment(p, ParentPathOf(p))
    decreases |p|
  {
    if '/' in p {
      var i := IndexOf(p, '/');
      var rest := p[i + 1..];
      var head := p[..i];
      var parts := Split(p);
      assert parts == [head] + Split(rest);
      var tail := SliceTo(Split(rest), -1);
      assert SliceTo(parts, -1) == [head] + tail;
      if '/' in rest {
        ParentPathDropsLastSegment(rest);
        JoinCons(head, tail);
        SegmentBeforeLast(p, i, ParentPathOf(rest));
      } else {
        assert Split(rest) == [rest];
        assert ParentPathOf(p) == head;
        assert p[i + 1..] == rest;
      }
    }
  }

  lemma JoinCons(head: string, tail: seq<string>)
    requires |tail| >= 1
    ensures Join([head] + tail) == head + "/" + Join(tail)
  {
    assert ([head] + tail)[1..] == tail;
  }

  /** Dropping the last segment of what follows the first '/' drops the last segment of the whole. */
  lemma SegmentBeforeLast(p: string, i: nat, r: string)
    requires i < |p| && p[i] == '/'
    requires '/' in p[i + 1..] && DropsLastSegment(p[i + 1..], r)
    ensures DropsLastSegment(p, p[..i] + "/" + r)
  {
    var rest := p[i + 1..];
    var q := p[..i] + "/" + r;
    assert q == p[..i + 1 + |r|];
    assert p[|q|] == rest[|r|];
    assert p[|q| + 1..] == rest[|r| + 1..];
  }

  /** `dir[el]` as a template literal renders it: a name, one character of a file's text, or "undefined" out of range. */
  function ElementText(dir: Content, selected: Option<int>): string
  {
    match dir
    case Names(names) =>
      if selected.Some? && 0 <= selected.value < |names| then names[selected.value] else "undefined"
    case Text(text) =>
      if selected.Some? && 0 <= selected.value < |text| then [text[selected.value]] else "undefined"
  }

  /** getChildPath: `${path}/${dir[el]}`. */
  function ChildPath(path: string, dir: Content, selected: Option<int>): string
  {
    path + "/" + ElementText(dir, selected)
  }

  /** The parent of `path/name` is `path`, as long as `name` has no '/'. */
  lemma ParentOfChild(path: string, name: string)
    ensures '/' !in name ==> ParentPathOf(path + "/" + name) == path
  {
    if '/' !in name {
      var c := path + "/" + name;
      assert c[|path|] == '/';
      assert c[|path| + 1..] == name;
      ParentPathDropsLastSegment(c);
      assert c[..|path|] == path;
    }
  }

  /**
   * getPath({path, dir, selected}): the current path unchanged, the child
   * `path/dir[selected]`, and the parent from the resolved path. Evaluating
   * `dir[el]` on an undefined `dir` throws before realpath is reached; realpath
   * rejects an undefined path and a path that does not resolve.
   */
  function GetPath(realpath: map<string, string>, args: PathArgs): (r: Result<PathPayload, FsError>)
    ensures r.Success? <==> args.dir.Some? && args.path.Some? && args.path.value in realpath
    ensures args.dir.None? ==> r == Failure(TypeError)
    ensures r.Success? ==> r.value.currentPath == args.path.value
    ensures r.Success? ==> r.value.childPath == ChildPath(args.path.value, args.dir.value, args.selected)
    ensures r.Success? && '/' !in ElementText(args.dir.value, args.selected) ==>
      ParentPathOf(r.value.childPath) == r.value.currentPath
    ensures r.Success? ==> DropsLastSegment(realpath[args.path.value], r.value.parentPath)
  {
    if args.dir.None? then Failure(TypeError)
    else if args.path.None? then Failure(TypeError)
    else if args.path.value !in realpath then Failure(NoEntry(args.path.value))
    else
      var path := args.path.value;
      var childPath := ChildPath(path, args.dir.value, args.selected);
      var parentPath := ParentPathOf(realpath[path]);
      ParentPathDropsLastSegment(realpath[path]);
      ParentOfChild(path, ElementText(args.dir.value, args.selected));
      Success(PathPayload(path, parentPath, childPath))
  }

  // ---------------------------------------------------------------------------
  // Effects
  // ---------------------------------------------------------------------------

  /** runGetContents: Cmd.run(getContents) with GET_CONTENTS_SUCCESS / GET_CONTENTS_FAILURE. */
  function RunGetContents(path: string, key: ContentKey): Cmd
  {
    Run(LoadContents(ContentsArgs(path, key)))
  }

  /** The action a Cmd.run dispatches once its task settles: the success creator on resolve, the failure creator on reject. */
  function Settle(env: Env, task: Task): (a: Action)
    ensures task.LoadContents? ==>
      (a.GetContentsSuccess? <==> GetContents(env.fs, task.contentsArgs).Success?) && (a.GetContentsSuccess? || a.GetContentsFailure?)
    ensures task.ResolvePaths? ==>
      (a.GetPathSuccess? <==> GetPath(env.realpath, task.pathArgs).Success?) && (a.GetPathSuccess? || a.GetPathFailure?)
    // the success action carries the resolved value, the failure action the rejection
    ensures a.GetContentsSuccess? ==> Success(a.contents) == GetContents(env.fs, task.contentsArgs)
    ensures a.GetContentsFailure? ==> Failure(a.error) == GetContents(env.fs, task.contentsArgs)
    ensures a.GetPathSuccess? ==> Success(a.paths) == GetPath(env.realpath, task.pathArgs)
    ensures a.GetPathFailure? ==> Failure(a.error) == GetPath(env.realpath, task.pathArgs)
  {
    match task
    case LoadContents(args) =>
      (match GetContents(env.fs, args)
       case Success(payload) => GetContentsSuccess(payload)
       case Failure(e) => GetContentsFailure(e))
    case ResolvePaths(args) =>
      (match GetPath(env.realpath, args)
       case Success(payload) => GetPathSuccess(payload)
       case Failure(e) => GetPathFailure(e))
  }

  // ---------------------------------------------------------------------------
  // The handlers
  // ---------------------------------------------------------------------------

  /** INIT: record the path, then load it and, once loaded, dispatch INIT_SUCCESS. */
  function OnInit(s: State, path: string): (r: Loop)
    ensures r.state.currentPath == Some(path)
    ensures OnlyChanged(s, r.state, {CurrentPathField})
    ensures r.cmd == List([RunGetContents(path, CurrentContent), Dispatch(InitSuccess)], true)
  {
    Loop(s.(currentPath := Some(path)), List([RunGetContents(path, CurrentContent), Dispatch(InitSuccess)], true))
  }

  /** INIT_SUCCESS: keep the state and resolve the three paths from the current position. */
  function OnInitSuccess(s: State): (r: Loop)
    ensures r.state == s
    ensures r.cmd == Run(ResolvePaths(PathArgs(s.currentPath, s.currentContent, s.currentSelected)))
  {
    Loop(s, Run(ResolvePaths(PathArgs(s.currentPath, s.currentContent, s.currentSelected))))
  }

  /** GET_PATH_SUCCESS: spread the three paths over the state, then load parent and child side by side. */
  function OnGetPathSuccess(s: State, p: PathPayload): (r: Loop)
    ensures r.state.currentPath == Some(p.currentPath)
    ensures r.state.parentPath == Some(p.parentPath)
    ensures r.state.childPath == Some(p.childPath)
    ensures OnlyChanged(s, r.state, {CurrentPathField, ParentPathField, ChildPathField})
    ensures r.cmd == List([RunGetContents(p.parentPath, ParentContent), RunGetContents(p.childPath, ChildContent)], false)
  {
    Loop(
      s.(currentPath := Some(p.currentPath), parentPath := Some(p.parentPath), childPath := Some(p.childPath)),
      List([RunGetContents(p.parentPath, ParentContent), RunGetContents(p.childPath, ChildContent)], false))
  }

  /** GET_CONTENTS_SUCCESS: spread `{[key]: content}` over the state; no effect. */
  function OnGetContentsSuccess(s: State, p: ContentsPayload): (r: Loop)
    ensures Slot(r.state, p.key) == Some(p.content)
    ensures OnlyChanged(s, r.state, {ContentField(p.key)})
    ensures r.cmd == NoCmd
  {
    var t :=
      match p.key
      case CurrentContent => s.(currentContent := Some(p.content))
      case ParentContent => s.(parentContent := Some(p.content))
      case ChildContent => s.(childContent := Some(p.content));
    Loop(t, NoCmd)
  }

  /** An action's `type` string. */
  function TypeOf(action: Action): (t: string)
    ensures action.Unknown? <==> t !in DeclaredTypes
  {
    match action
    case Init(_) => "INIT"
    case InitSuccess => "INIT_SUCCESS"
    case InitFailure(_) => "INIT_FAILURE"
    case GetContentsSuccess(_) => "GET_CONTENTS_SUCCESS"
    case GetContentsFailure(_) => "GET_CONTENTS_FAILURE"
    case GetPathSuccess(_) => "GET_PATH_SUCCESS"
    case GetPathFailure(_) => "GET_PATH_FAILURE"
    case Unknown(t) => t
  }

  /** The keys of the handler object given to createReducer. */
  const HandledTypes: set<string> := {"INIT", "INIT_SUCCESS", "GET_PATH_SUCCESS", "GET_CONTENTS_SUCCESS"}

  /** `handlers.hasOwnProperty(action.type)`. */
  predicate HasHandler(action: Action)
  {
    TypeOf(action) in HandledTypes
  }

  /** The `state = initialState` default parameter. */
  function StateOrInitial(state: Option<State>): State
  {
    if state.Some? then state.value else InitialState
  }

  /**
   * The reducer createReducer builds: an undefined state becomes the initial
   * state, a handled type runs its handler, any other type returns the state.
   */
  function Reduce(state: Option<State>, action: Action): (r: Loop)
    ensures HasHandler(action) <==> action.Init? || action.InitSuccess? || action.GetPathSuccess? || action.GetContentsSuccess?
    ensures !HasHandler(action) ==> r.cmd == NoCmd
    ensures !HasHandler(action) && state.Some? ==> r.state == state.value
    ensures !HasHandler(action) && state.None? ==> r.state == InitialState
    // a handled type runs its handler on the state, or on the initial state when the state is undefined
    ensures action.Init? ==> r == OnInit(StateOrInitial(state), action.path)
    ensures action.InitSuccess? ==> r == OnInitSuccess(StateOrInitial(state))
    ensures action.GetPathSuccess? ==> r == OnGetPathSuccess(StateOrInitial(state), action.paths)
    ensures action.GetContentsSuccess? ==> r == OnGetContentsSuccess(StateOrInitial(state), action.contents)
  {
    var s := StateOrInitial(state);
    match action
    case Init(path) => OnInit(s, path)
    case InitSuccess => OnInitSuccess(s)
    case GetPathSuccess(p) => OnGetPathSuccess(s, p)
    case GetContentsSuccess(p) => OnGetContentsSuccess(s, p)
    case _ => Loop(s, NoCmd)
  }

  // ---------------------------------------------------------------------------
  // Properties of whole runs
  // ---------------------------------------------------------------------------

  /** An undefined state is treated as the initial state, whatever the action. */
  lemma UndefinedStateIsInitial(action: Action)
    ensures Reduce(None, action) == Reduce(Some(InitialState), action)
  {
  }

  lemma InitialStateIsEmpty()
    ensures InitialState.currentSelected == Some(0)
    ensures InitialState.currentPath.None? && InitialState.parentPath.None? && InitialState.childPath.None?
    ensures forall k :: Slot(InitialState, k).None?
  {
  }

  /** A failed load or path resolution is dispatched to no handler, so the state stays as it was. */
  lemma {:induction false} FailedTaskChangesNothing(env: Env, s: State, task: Task)
    requires task.LoadContents? ==> GetContents(env.fs, task.contentsArgs).Failure?
    requires task.ResolvePaths? ==> GetPath(env.realpath, task.pathArgs).Failure?
    ensures Reduce(Some(s), Settle(env, task)) == Loop(s, NoCmd)
  {
  }

  /** A successful load changes exactly the one slot it was asked for. */
  lemma {:induction false} LoadFillsOneSlot(env: Env, s: State, path: string, key: ContentKey)
    requires path in env.fs && !env.fs[path].Unreadable?
    ensures var t := Reduce(Some(s), Settle(env, LoadContents(ContentsArgs(path, key)))).state;
      && OnlyChanged(s, t, {ContentField(key)})
      && Slot(t, key) == Some(if env.fs[path].Dir? then Names(env.fs[path].names) else Text(env.fs[path].text))
  {
  }

  /**
   * INIT_SUCCESS followed by its settled path resolution, from any state whose
   * position resolves: the current path stays, the child path is the selected
   * entry beneath it, the parent path is the resolved path without its last
   * segment, and no other field changes.
   */
  lemma {:induction false} ResolvedPathsReachState(env: Env, s: State)
    requires GetPath(env.realpath, PathArgs(s.currentPath, s.currentContent, s.currentSelected)).Success?
    ensures
      var r1 := Reduce(Some(s), InitSuccess);
      var t := Reduce(Some(r1.state), Settle(env, r1.cmd.task)).state;
      var path := s.currentPath.value;
      && t.currentPath == s.currentPath
      && t.childPath == Some(ChildPath(path, s.currentContent.value, s.currentSelected))
      && DropsLastSegment(env.realpath[path], t.parentPath.value)
      && OnlyChanged(s, t, {ParentPathField, ChildPathField})
  {
    var r1 := Reduce(Some(s), InitSuccess);
    var a := Settle(env, r1.cmd.task);
    assert a == GetPathSuccess(GetPath(env.realpath, PathArgs(s.currentPath, s.currentContent, s.currentSelected)).value);
    var t := Reduce(Some(s), a).state;
    assert Get(t, CurrentPathField) == Get(s, CurrentPathField);
  }

  /**
   * INIT on a directory, with its effects run in the order INIT's sequenced
   * list and the path resolution issue them: the current pane holds the
   * directory, the child path is the selected entry beneath it, the parent path
   * is its resolved parent, and the parent and child loads are issued next.
   */
  lemma InitOnDirectory(env: Env, s: State, path: string)
    requires path in env.fs && env.fs[path].Dir? && path in env.realpath
    ensures
      var names := env.fs[path].names;
      var r1 := Reduce(Some(s), Init(path));
      var r2 := Reduce(Some(r1.state), Settle(env, r1.cmd.cmds[0].task));
      var r3 := Reduce(Some(r2.state), r1.cmd.cmds[1].action);
      var r4 := Reduce(Some(r3.state), Settle(env, r3.cmd.task));
      var parent := ParentPathOf(env.realpath[path]);
      var child := ChildPath(path, Names(names), s.currentSelected);
      && r4.state == s.(currentPath := Some(path), currentContent := Some(Names(names)),
                        parentPath := Some(parent), childPath := Some(child))
      && r4.cmd == List([RunGetContents(parent, ParentContent), RunGetContents(child, ChildContent)], false)
  {
  }

  /**
   * INIT on a path that does not exist: the load fails, INIT_SUCCESS still
   * follows it, and the path resolution then fails on the undefined content;
   * only currentPath has changed.
   */
  lemma InitOnMissingPath(env: Env, s: State, path: string)
    requires path !in env.fs && s.currentContent.None?
    ensures
      var r1 := Reduce(Some(s), Init(path));
      var r2 := Reduce(Some(r1.state), Settle(env, r1.cmd.cmds[0].task));
      var r3 := Reduce(Some(r2.state), r1.cmd.cmds[1].action);
      && Settle(env, r1.cmd.cmds[0].task) == GetContentsFailure(NoEntry(path))
      && Settle(env, r3.cmd.task) == GetPathFailure(TypeError)
      && Reduce(Some(r3.state), Settle(env, r3.cmd.task)) == Loop(s.(currentPath := Some(path)), NoCmd)
  {
  }

  // ---------------------------------------------------------------------------
  // The test fixture
  // ---------------------------------------------------------------------------

  /** The mock filesystem the tests mount; "/mock/dir1/" resolves without its trailing '/'. */
  const Fixture: Env := Env(
    map[
      "/mock" := Dir(["denied", "dir1", "file-denied.txt"]),
      "/mock/dir1" := Dir(["dir", "empty-dir", "empty-file.txt", "file.jpg", "text-file.txt"]),
      "/mock/dir1/" := Dir(["dir", "empty-dir", "empty-file.txt", "file.jpg", "text-file.txt"]),
      "/mock/dir1/dir" := Dir(["file1", "file2"]),
      "/mock/dir1/empty-dir" := Dir([]),
      "/mock/dir1/empty-file.txt" := File(""),
      "/mock/dir1/text-file.txt" := File("text file content"),
      "/mock/dir1/file.jpg" := File([8 as char, 6 as char, 7 as char, 5 as char, 3 as char, 0 as char, 9 as char]),
      "/mock/denied" := Unreadable,
      "/mock/file-denied.txt" := Unreadable
    ],
    map["/mock/dir1" := "/mock/dir1", "/mock/dir1/" := "/mock/dir1", "/mock" := "/mock"])

  /**
   * What getContents gives on the fixture: a directory's names, a file's text,
   * a failure for a missing path. An empty directory or file gives its empty
   * content, a binary file its raw text, and an unreadable path a failure;
   * no "(Empty)", "(Binary)" or "(Not Accessible)" text is produced.
   */
  lemma FixtureContents()
    ensures GetContents(Fixture.fs, ContentsArgs("/mock/dir1", CurrentContent))
      == Success(ContentsPayload(CurrentContent, Names(["dir", "empty-dir", "empty-file.txt", "file.jpg", "text-file.txt"])))
    ensures GetContents(Fixture.fs, ContentsArgs("/mock/dir1/text-file.txt", ChildContent))
      == Success(ContentsPayload(ChildContent, Text("text file content")))
    ensures GetContents(Fixture.fs, ContentsArgs("/mock/non-existent", CurrentContent)) == Failure(NoEntry("/mock/non-existent"))
    ensures GetContents(Fixture.fs, ContentsArgs("/mock/dir1/empty-dir", ChildContent)) == Success(ContentsPayload(ChildContent, Names([])))
    ensures GetContents(Fixture.fs, ContentsArgs("/mock/dir1/empty-file.txt", ChildContent)) == Success(ContentsPayload(ChildContent, Text("")))
    ensures GetContents(Fixture.fs, ContentsArgs("/mock/denied", ChildContent)) == Failure(AccessDenied("/mock/denied"))
    ensures GetContents(Fixture.fs, ContentsArgs("/mock/dir1/file.jpg", ChildContent)).Success?
  {
  }

  /** "/mock/dir1" resolves to the parent "/mock". */
  lemma FixtureParent()
    ensures ParentPathOf("/mock/dir1") == "/mock"
  {
    var name := "dir1";
    assert '/' !in name by {
      assert forall i :: 0 <= i < |name| ==> name[i] != '/';
    }
    assert "/mock/dir1" == "/mock" + "/" + name;
    ParentOfChild("/mock", name);
  }

  /** The parent of a top-level path such as "/mock" is "", not "/". */
  lemma TopLevelParentIsEmpty(name: string)
    ensures '/' !in name ==> ParentPathOf("/" + name) == ""
  {
    assert "" + "/" + name == "/" + name;
    ParentOfChild("", name);
  }

  /** On the fixture, "/mock" gets the parent "", which GET_PATH_SUCCESS then fails to load. */
  lemma FixtureTopLevelParent()
    ensures ParentPathOf("/mock") == ""
    ensures GetContents(Fixture.fs, ContentsArgs("", ParentContent)) == Failure(NoEntry(""))
  {
    var name := "mock";
    assert '/' !in name by {
      assert forall i :: 0 <= i < |name| ==> name[i] != '/';
    }
    assert "/mock" == "/" + name;
    TopLevelParentIsEmpty(name);
  }

  /**
   * getPath on "/mock/dir1/" with the first entry selected: the current path
   * keeps its trailing '/', so the child path has a doubled '/', while the
   * parent comes from the resolved path.
   */
  lemma FixtureGetPathWithTrailingSlash()
    ensures GetPath(Fixture.realpath, PathArgs(Some("/mock/dir1/"), Some(Names(["dir", "empty-dir", "empty-file.txt", "file.jpg", "text-file.txt"])), Some(0)))
      == Success(PathPayload("/mock/dir1/", "/mock", "/mock/dir1//dir"))
  {
    var realpath := Fixture.realpath;
    assert "/mock/dir1/" in realpath && realpath["/mock/dir1/"] == "/mock/dir1";
    var names := Names(["dir", "empty-dir", "empty-file.txt", "file.jpg", "text-file.txt"]);
    assert ElementText(names, Some(0)) == "dir";
    assert ChildPath("/mock/dir1/", names, Some(0)) == "/mock/dir1//dir";
    FixtureParent();
  }
}
