/** Client-side view routing: view names, path splitting, and the view holder
  * that maps a location path under its root path to the view to render. */
module Views {
  import opened Base
  import opened Lists
  import opened Js

  /** `'/' + name` unless the name already starts with a slash. */
  function NormalizeViewName(name: string): (r: string)
    ensures |r| > 0 && r[0] == '/'
    ensures |name| > 0 && name[0] == '/' ==> r == name
    ensures !(|name| > 0 && name[0] == '/') ==> r == "/" + name
  {
    if |name| > 0 && name[0] == '/' then name else "/" + name
  }

  lemma NormalizeIdempotent(name: string)
    ensures NormalizeViewName(NormalizeViewName(name)) == NormalizeViewName(name)
  {
  }

  /** `s.split('/')`: the pieces between slashes; never empty. */
  function Split(s: string): (r: seq<string>)
    ensures |r| >= 1
    ensures forall i :: 0 <= i < |r| ==> '/' !in r[i]
  {
    if s == [] then [""]
    else
      var init := Split(s[..|s| - 1]);
      var c := s[|s| - 1];
      if c == '/' then init + [""]
      else init[..|init| - 1] + [init[|init| - 1] + [c]]
  }

  /** `parts.join('/')`. */
  function Join(parts: seq<string>): string {
    if parts == [] then ""
    else if |parts| == 1 then parts[0]
    else Join(parts[..|parts| - 1]) + "/" + parts[|parts| - 1]
  }

  /** Appending a character to the last piece appends it to the join. */
  lemma JoinAppendChar(parts: seq<string>, c: char)
    requires |parts| >= 1
    ensures Join(parts[..|parts| - 1] + [parts[|parts| - 1] + [c]]) == Join(parts) + [c]
  {
    var n := |parts|;
    var init := parts[..n - 1];
    var last := parts[n - 1];
    var q := init + [last + [c]];
    if n == 1 {
      assert q == [last + [c]];
    } else {
      var x := Join(init);
      assert Join(q) == x + "/" + (last + [c]) by {
        assert q[..n - 1] == init && q[n - 1] == last + [c];
      }
      assert Join(parts) == x + "/" + last;
      AppendLast(x + "/", last, c);
    }
  }

  /** Appending a character after a concatenation. */
  lemma AppendLast(a: string, b: string, c: char)
    ensures a + (b + [c]) == (a + b) + [c]
  {
  }

  /** Appending an empty piece appends a slash to the join. */
  lemma JoinAppendEmpty(parts: seq<string>)
    requires |parts| >= 1
    ensures Join(parts + [""]) == Join(parts) + "/"
  {
    assert (parts + [""])[..|parts|] == parts;
  }

  /** Joining the pieces of a split gives the string back. */
  lemma {:induction false} JoinSplit(s: string)
    ensures Join(Split(s)) == s
  {
    if s != [] {
      var prefix := s[..|s| - 1];
      var c := s[|s| - 1];
      JoinSplit(prefix);
      assert s == prefix + [c];
      if c != '/' {
        JoinAppendChar(Split(prefix), c);
      } else {
        JoinAppendEmpty(Split(prefix));
      }
    }
  }

  /** Splitting a join of slash-free pieces gives the pieces back. */
  lemma {:induction false} SplitJoin(parts: seq<string>)
    requires |parts| >= 1
    requires forall i :: 0 <= i < |parts| ==> '/' !in parts[i]
    ensures Split(Join(parts)) == parts
  {
    if |parts| == 1 {
      SplitSlashFree(parts[0]);
    } else {
      var init := parts[..|parts| - 1];
      var last := parts[|parts| - 1];
      SplitJoin(init);
      SplitAfter(Join(init), last);
      assert init + [last] == parts;
    }
  }

  /** A slash-free string splits into itself. */
  lemma {:induction false} SplitSlashFree(s: string)
    requires '/' !in s
    ensures Split(s) == [s]
  {
    if s != [] {
      var prefix := s[..|s| - 1];
      assert '/' !in prefix by {
        forall i | 0 <= i < |prefix| ensures prefix[i] != '/' {
          assert prefix[i] == s[i];
        }
      }
      SplitSlashFree(prefix);
      assert prefix + [s[|s| - 1]] == s;
    }
  }

  /** Appending `'/' + t` for a slash-free `t` adds exactly the piece `t`. */
  lemma {:induction false} SplitAfter(s: string, t: string)
    requires '/' !in t
    ensures Split(s + "/" + t) == Split(s) + [t]
    decreases |t|
  {
    if t == [] {
      assert (s + "/" + t)[..|s + "/" + t| - 1] == s;
    } else {
      var t' := t[..|t| - 1];
      var c := t[|t| - 1];
      assert '/' !in t' by {
        forall i | 0 <= i < |t'| ensures t'[i] != '/' {
          assert t'[i] == t[i];
        }
      }
      SplitAfter(s, t');
      assert (s + "/" + t)[..|s + "/" + t| - 1] == s + "/" + t';
      assert t' + [c] == t;
      var init := Split(s + "/" + t');
      assert init[|init| - 1] == t';
      assert init[..|init| - 1] == Split(s);
    }
  }

  /** The last piece of a split is empty exactly when the string is empty or
    * ends with a slash. */
  lemma SplitLast(s: string)
    ensures Split(s)[|Split(s)| - 1] == "" <==> s == [] || s[|s| - 1] == '/'
  {
  }

  /** The string without its trailing slash, if it has one. */
  function DropTrailingSlash(s: string): (r: string)
    ensures r <= s
    ensures |r| >= |s| - 1
  {
    if s != [] && s[|s| - 1] == '/' then s[..|s| - 1] else s
  }

  /** When the last piece of a split is empty, the other pieces join to the
    * string without its last character. */
  lemma SplitDropEmpty(s: string)
    requires Split(s)[|Split(s)| - 1] == ""
    ensures s == [] ==> Split(s) == [""]
    ensures s != [] ==> |Split(s)| >= 2 && Join(Split(s)[..|Split(s)| - 1]) == s[..|s| - 1]
  {
    SplitLast(s);
    if s != [] {
      var init := s[..|s| - 1];
      JoinSplit(init);
      assert init + [s[|s| - 1]] == s;
      assert Split(s) == Split(init) + [""];
      assert (Split(init) + [""])[..|Split(init)|] == Split(init);
    }
  }

  /** `ViewHolder.splitPath`: the slash-free pieces of the path with one
    * trailing slash removed; only the empty path has no pieces. */
  function SplitPath(path: string): (r: seq<string>)
    ensures forall i :: 0 <= i < |r| ==> '/' !in r[i]
    ensures r == [] <==> path == []
    ensures Join(r) == DropTrailingSlash(path)
  {
    var parts := Split(path);
    JoinSplit(path);
    SplitLast(path);
    if parts[|parts| - 1] == "" then
      SplitDropEmpty(path);
      parts[..|parts| - 1]
    else
      parts
  }

  /** The contract of `SplitPath` determines its result. */
  lemma SplitPathUnique(path: string, q: seq<string>)
    requires forall i :: 0 <= i < |q| ==> '/' !in q[i]
    requires q == [] <==> path == []
    requires Join(q) == DropTrailingSlash(path)
    ensures q == SplitPath(path)
  {
    var r := SplitPath(path);
    if path != [] {
      SplitJoin(q);
      SplitJoin(r);
    }
  }

  /** The join of the first k pieces, followed by a slash, starts the join
    * of all of them. */
  lemma {:induction false} JoinPrefix(parts: seq<string>, k: nat)
    requires 1 <= k < |parts|
    ensures Join(parts[..k]) + "/" <= Join(parts)
  {
    var init := parts[..|parts| - 1];
    var x := Join(init);
    assert Join(parts) == x + "/" + parts[|parts| - 1];
    assert x + "/" <= Join(parts);
    if k == |parts| - 1 {
      assert parts[..k] == init;
    } else {
      JoinPrefix(init, k);
      assert init[..k] == parts[..k];
      var y := Join(parts[..k]) + "/";
      assert y <= x;
      assert y == Join(parts)[..|y|];
    }
  }

  /** The path with everything from the first `'#'` removed. */
  function StripHash(path: string): (r: string)
    ensures '#' !in r
    ensures |r| <= |path| && r == path[..|r|]
    ensures '#' in path ==> path[|r|] == '#'
    ensures '#' !in path ==> r == path
  {
    var i := IndexOf(path, '#');
    if i > -1 then path[..i] else path
  }

  /** The root pieces are a prefix of the path's pieces. */
  predicate UnderRoot(paths: seq<string>, rootPaths: seq<string>) {
    |rootPaths| <= |paths| && paths[..|rootPaths|] == rootPaths
  }

  /** `paths.slice(0, n)`: JavaScript clamps the end to the length. */
  function Slice(paths: seq<string>, n: nat): (r: seq<string>)
    ensures |r| == if n < |paths| then n else |paths|
    ensures r == paths[..|r|]
  {
    if n < |paths| then paths[..n] else paths
  }

  /** The first n pieces of slash-free pieces: their join is the whole join
    * when nothing is cut, and is followed by a slash in it otherwise; a
    * non-empty slice splits back into itself. */
  lemma JoinSlice(parts: seq<string>, n: nat)
    requires n >= 1
    requires forall i :: 0 <= i < |parts| ==> '/' !in parts[i]
    ensures |parts| <= n ==> Join(Slice(parts, n)) == Join(parts)
    ensures n < |parts| ==> Join(Slice(parts, n)) + "/" <= Join(parts)
    ensures Slice(parts, n) != [] ==> Split(Join(Slice(parts, n))) == Slice(parts, n)
  {
    var q := Slice(parts, n);
    if n < |parts| {
      JoinPrefix(parts, n);
    }
    if q != [] {
      assert forall i :: 0 <= i < |q| ==> q[i] == parts[i];
      SplitJoin(q);
    }
  }

  /** The name of the view `navigate` renders for a location path, if any:
    * there is one exactly when the hash-free path lies under the root. */
  function Route(path: string, rootPaths: seq<string>): (r: Option<string>)
    ensures r.Some? <==> UnderRoot(SplitPath(StripHash(path)), rootPaths)
  {
    var paths := SplitPath(StripHash(path));
    if UnderRoot(paths, rootPaths) then Some(Join(Slice(paths, |rootPaths| + 1))) else None
  }

  /** The view name is a leading part of the hash-free path, cut at a slash:
    * when the path has no piece beyond the root's and one more, the name is
    * the whole path without a trailing slash; otherwise a slash follows it. */
  lemma RouteName(path: string, rootPaths: seq<string>)
    ensures Route(path, rootPaths).Some? ==> Route(path, rootPaths).value <= StripHash(path)
    ensures Route(path, rootPaths).Some? && |SplitPath(StripHash(path))| <= |rootPaths| + 1 ==>
      Route(path, rootPaths).value == DropTrailingSlash(StripHash(path))
    ensures Route(path, rootPaths).Some? && |SplitPath(StripHash(path))| > |rootPaths| + 1 ==>
      Route(path, rootPaths).value + "/" <= StripHash(path)
  {
    if Route(path, rootPaths).None? {
      return;
    }
    var s := StripHash(path);
    var paths := SplitPath(s);
    var name := Join(Slice(paths, |rootPaths| + 1));
    assert Route(path, rootPaths).value == name;
    var whole := DropTrailingSlash(s);
    assert Join(paths) == whole && whole <= s;
    JoinSlice(paths, |rootPaths| + 1);
    if |paths| <= |rootPaths| + 1 {
      assert name == whole;
    } else {
      var y := name + "/";
      assert y <= whole;
      assert y == s[..|y|] by {
        assert y == whole[..|y|];
        assert whole == s[..|whole|];
      }
    }
  }

  /** The pieces of the view name are exactly the first (root length + 1)
    * pieces of the hash-free path: the root's pieces followed by at most one
    * more. A path with no pieces gives the empty name. */
  lemma RoutePieces(path: string, rootPaths: seq<string>)
    ensures Route(path, rootPaths).Some? ==>
      var pieces := Split(Route(path, rootPaths).value);
      |rootPaths| <= |pieces| <= |rootPaths| + 1 && pieces[..|rootPaths|] == rootPaths
    ensures Route(path, rootPaths).Some? && SplitPath(StripHash(path)) != [] ==>
      Split(Route(path, rootPaths).value) == Slice(SplitPath(StripHash(path)), |rootPaths| + 1)
    ensures Route(path, rootPaths).Some? && SplitPath(StripHash(path)) == [] ==>
      Route(path, rootPaths).value == ""
  {
    if Route(path, rootPaths).None? {
      return;
    }
    var paths := SplitPath(StripHash(path));
    var q := Slice(paths, |rootPaths| + 1);
    assert Route(path, rootPaths).value == Join(q);
    JoinSlice(paths, |rootPaths| + 1);
    if q == [] {
      assert rootPaths == [];
    } else {
      assert Split(Join(q)) == q;
      assert q[..|rootPaths|] == paths[..|rootPaths|];
    }
  }

  /** `ViewHolder.getParams()` without an argument: an empty query gives `{}`;
    * any other query string is a string, whose missing `forEach` throws. */
  function GetParams(search: string): (r: Result<JsValue, string>)
    ensures search == "" <==> r.Success?
    ensures r.Success? ==> r.value == Object(map[])
  {
    if search == "" then Success(Object(map[])) else Failure("queryParams.forEach is not a function")
  }

  class View {
    const name: string
    const properties: JsValue

    /** A view's name always starts with a slash; missing properties become `{}`. */
    constructor (viewName: string, props: JsValue)
      ensures name == NormalizeViewName(viewName)
      ensures properties == if Truthy(props) then props else Object(map[])
    {
      name := NormalizeViewName(viewName);
      properties := if Truthy(props) then props else Object(map[]);
    }
  }

  /** What the holder's emitter reports. */
  datatype HolderEvent =
    | Purge
    | Render(view: View)
    | Remove(view: View)
    | Load(path: string)
    | LoadError(error: JsValue)

  /** A DOM child of the holder's element: a view's element, or anything else. */
  datatype Child = ViewElement(view: View) | OtherElement

  class ViewHolder {
    const rootPath: string
    const rootPaths: seq<string>
    /** The holder element's child nodes. */
    var children: seq<Child>
    var events: seq<HolderEvent>
    /** The paths pushed onto the browser history. */
    var history: seq<string>

    constructor (rootPath: string)
      ensures this.rootPath == rootPath && rootPaths == SplitPath(rootPath)
      ensures children == [] && events == [] && history == []
    {
      this.rootPath := rootPath;
      rootPaths := SplitPath(rootPath);
      children := [];
      events := [];
      history := [];
    }

    /** `purge()`: remove every child, first child first. */
    method PurgeChildren()
      modifies this
      ensures children == [] && events == old(events) + [Purge] && history == old(history)
    {
      events := events + [Purge];
      while children != []
        invariant events == old(events) + [Purge] && history == old(history)
        decreases |children|
      {
        children := children[1..];
      }
    }

    /** The root-prefix check of `navigate`. */
    method MatchesRoot(paths: seq<string>) returns (ok: bool)
      ensures ok <==> UnderRoot(paths, rootPaths)
    {
      var i := 0;
      while i < |rootPaths|
        invariant 0 <= i <= |rootPaths|
        invariant i <= |paths| && paths[..i] == rootPaths[..i]
      {
        // Reading past the end yields `undefined`, which equals no piece.
        if |paths| <= i || paths[i] != rootPaths[i] {
          return false;
        }
        assert paths[..i + 1] == paths[..i] + [paths[i]];
        i := i + 1;
      }
      return true;
    }

    /** The routing part of `navigate`: strip the hash, split the path, check
      * the root pieces and join the leading pieces into the view name. */
    method ResolveView(path: string) returns (route: Option<string>)
      ensures route == Route(path, rootPaths)
    {
      var p := StripHash(path);
      var paths := SplitPath(p);
      var ok := MatchesRoot(paths);
      if !ok {
        return None;
      }
      route := Some(Join(Slice(paths, |rootPaths| + 1)));
    }

    /** `navigate(path, nonav)`. The path is pushed onto the history. With
      * `nonav` nothing else happens. Otherwise the holder is purged and, when
      * the path lies under the root, the view for `Route(path)` is rendered;
      * `initError` is how that view's `init()` settles. A query string makes
      * `getParams` throw after the purge. */
    method Navigate(path: string, nonav: bool, search: string, initError: Option<JsValue>)
      returns (r: Result<Option<View>, string>)
      modifies this
      ensures history == old(history) + [path]
      ensures nonav ==> r == Success(None) && children == old(children) && events == old(events)
      ensures !nonav && Route(path, rootPaths).None? ==>
        r == Success(None) && children == [] && events == old(events) + [Purge]
      ensures !nonav && Route(path, rootPaths).Some? && search != "" ==>
        r == Failure("queryParams.forEach is not a function") && children == [] && events == old(events) + [Purge]
      ensures !nonav && Route(path, rootPaths).Some? && search == "" ==>
        && r.Success? && r.value.Some?
        && r.value.value.name == NormalizeViewName(Route(path, rootPaths).value)
        && r.value.value.properties == Object(map[])
        && children == [ViewElement(r.value.value)]
        && events == old(events) + [Purge, Render(r.value.value),
             if initError.Some? then LoadError(initError.value) else Load(StripHash(path))]
    {
      history := history + [path];
      if nonav {
        return Success(None);
      }
      PurgeChildren();
      var route := ResolveView(path);
      if route.None? {
        return Success(None);
      }
      r := Show(route.value, search, initError, StripHash(path));
    }

    /** The end of `navigate` once a view name is known: build the view with
      * the query parameters, render it into the purged holder and emit how
      * its `init()` settles. */
    method Show(viewName: string, search: string, initError: Option<JsValue>, loaded: string)
      returns (r: Result<Option<View>, string>)
      modifies this
      requires children == []
      ensures history == old(history)
      ensures search != "" ==>
        r == Failure("queryParams.forEach is not a function") && children == [] && events == old(events)
      ensures search == "" ==>
        && r.Success? && r.value.Some?
        && r.value.value.name == NormalizeViewName(viewName)
        && r.value.value.properties == Object(map[])
        && children == [ViewElement(r.value.value)]
        && events == old(events) + [Render(r.value.value),
             if initError.Some? then LoadError(initError.value) else Load(loaded)]
    {
      var params := GetParams(search);
      if params.Failure? {
        return Failure(params.error);
      }
      var view := new View(viewName, params.value);
      children := children + [ViewElement(view)];
      events := events + [Render(view)];
      match initError {
        case Some(e) => events := events + [LoadError(e)];
        case None => events := events + [Load(loaded)];
      }
      r := Success(Some(view));
    }

    /** `loadNav()`: refuses with 'already there' when the current location has
      * as many pieces as the root; otherwise navigates to it, hash included. */
    method LoadNav(pathname: string, hash: string, search: string, initError: Option<JsValue>)
      returns (r: Result<Option<View>, string>)
      modifies this
      ensures |SplitPath(pathname)| == |rootPaths| ==>
        r == Failure("already there") && children == old(children) && events == old(events) && history == old(history)
      ensures |SplitPath(pathname)| != |rootPaths| ==> history == old(history) + [pathname + hash]
      ensures |SplitPath(pathname)| != |rootPaths| && Route(pathname + hash, rootPaths).None? ==>
        r == Success(None) && children == [] && events == old(events) + [Purge]
      ensures |SplitPath(pathname)| != |rootPaths| && Route(pathname + hash, rootPaths).Some? && search != "" ==>
        r == Failure("queryParams.forEach is not a function") && children == [] && events == old(events) + [Purge]
      ensures |SplitPath(pathname)| != |rootPaths| && Route(pathname + hash, rootPaths).Some? && search == "" ==>
        && r.Success? && r.value.Some?
        && r.value.value.name == NormalizeViewName(Route(pathname + hash, rootPaths).value)
        && r.value.value.properties == Object(map[])
        && children == [ViewElement(r.value.value)]
        && events == old(events) + [Purge, Render(r.value.value),
             if initError.Some? then LoadError(initError.value) else Load(StripHash(pathname + hash))]
    {
      var paths := SplitPath(pathname);
      if |paths| == |rootPaths| {
        return Failure("already there");
      }
      r := Navigate(pathname + hash, false, search, initError);
    }

    /** `remove(view)`: drop the first child that is this view's element. */
    method RemoveView(view: View) returns (found: bool)
      modifies this
      ensures found <==> ViewElement(view) in old(children)
      ensures children == RemoveFirst(old(children), ViewElement(view))
      ensures events == old(events) + [Remove(view)] && history == old(history)
    {
      events := events + [Remove(view)];
      var i := 0;
      while i < |children|
        invariant 0 <= i <= |children|
        invariant children == old(children)
        invariant ViewElement(view) !in children[..i]
      {
        if children[i] == ViewElement(view) {
          assert IndexOf(children, ViewElement(view)) == i by {
            IndexOfFirst(children, ViewElement(view), i);
          }
          children := children[..i] + children[i + 1..];
          return true;
        }
        assert children[..i + 1] == children[..i] + [children[i]];
        i := i + 1;
      }
      assert children[..i] == children;
      return false;
    }
  }
}
