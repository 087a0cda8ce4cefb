/** Building x-callback URLs and taking their parameters apart again. */
module XCallbackUrl {
  import opened Options
  import opened QueryStrings

  const HOST := "x-callback-url"
  const SUCCESS := "x-success"
  const ERROR := "x-error"
  const CANCEL := "x-cancel"

  /** A parsed URL. When the scheme is not a standard one there is no host: what
      follows the colon is all path. */
  datatype Url =
    | Invalid
    | Url(isStandard: bool, scheme: string, host: string, path: string,
          query: Option<string>, fragment: Option<string>)
  {
    function Text(): string
      requires Url?
    {
      scheme + ":" + (if isStandard then "//" + host else "") + path + Behind(query, fragment)
    }
  }

  /** A query and a fragment as they follow a path. */
  function Behind(query: Option<string>, fragment: Option<string>): string {
    (if query.Some? then "?" + query.value else "") + (if fragment.Some? then "#" + fragment.value else "")
  }

  predicate IsXCallbackURL(url: Url) {
    if url.Invalid? then false
    else if url.isStandard then url.host == HOST
    else
      var piece := if "//" <= url.path then url.path[2..] else url.path;
      piece[..Span(piece, {'/'})] == HOST
  }

  /** An action as the parser takes it apart: the fragment follows the first '#', and
      the query the first '?' before that. */
  datatype Action = Action(path: string, query: Option<string>, fragment: Option<string>) {
    function Text(): string {
      path + Behind(query, fragment)
    }
  }

  /** What is before the first `stop`, and what is behind it if there is one. */
  function Cut(s: string, stop: char): (r: (string, Option<string>)) {
    var n := Span(s, {stop});
    (s[..n], if n < |s| then Some(s[n + 1..]) else None)
  }

  function ParsedAction(action: string): Action {
    var (front, fragment) := Cut(action, '#');
    var (path, query) := Cut(front, '?');
    Action(path, query, fragment)
  }

  lemma SliceAt(s: string, n: nat)
    requires n < |s|
    ensures s == s[..n] + ([s[n]] + s[n + 1..])
  {
  }

  lemma CleanPrefix(s: string, n: nat, stop: char)
    requires n <= |s| && forall i :: 0 <= i < n ==> s[i] != stop
    ensures stop !in s[..n]
  {
  }

  function After(stop: char, rest: Option<string>): string {
    if rest.Some? then [stop] + rest.value else ""
  }

  lemma CutKeeps(s: string, stop: char)
    ensures s == Cut(s, stop).0 + After(stop, Cut(s, stop).1) && stop !in Cut(s, stop).0
  {
    var n := Span(s, {stop});
    CleanPrefix(s, n, stop);
    if n < |s| {
      SliceAt(s, n);
    } else {
      assert s[..n] == s && s + "" == s;
    }
  }

  lemma Nest(whole: string, front: string, last: string, path: string, middle: string)
    requires whole == front + last && front == path + middle
    ensures path + (middle + last) == whole
  {
  }

  /** Nothing of the action is lost or moved between the parts. */
  lemma ActionIsKept(action: string)
    ensures ParsedAction(action).Text() == action
  {
    var whole, front := Cut(action, '#'), Cut(Cut(action, '#').0, '?');
    CutKeeps(action, '#');
    CutKeeps(whole.0, '?');
    Nest(action, whole.0, After('#', whole.1), front.0, After('?', front.1));
    BehindIs(front.1, whole.1);
  }

  lemma BehindIs(query: Option<string>, fragment: Option<string>)
    ensures Behind(query, fragment) == After('?', query) + After('#', fragment)
  {
  }

  /** The path has neither separator, and the query no fragment. */
  lemma PartsAreClean(action: string)
    ensures var a := ParsedAction(action);
      '?' !in a.path && '#' !in a.path && (a.query.Some? ==> '#' !in a.query.value)
  {
    var front := Cut(action, '#').0;
    CutKeeps(action, '#');
    CutKeeps(front, '?');
    assert forall c :: c in Cut(front, '?').0 || c in After('?', Cut(front, '?').1) ==> c in front;
  }

  /** Parses scheme://x-callback-url/action. */
  function Target(isStandard: bool, scheme: string, action: string): (url: Url)
    ensures url.Url?
  {
    var a := ParsedAction(action);
    if isStandard then Url(true, scheme, HOST, "/" + a.path, a.query, a.fragment)
    else Url(false, scheme, "", "//" + HOST + "/" + a.path, a.query, a.fragment)
  }

  lemma Assemble(scheme: string, host: string, path: string, behind: string)
    ensures scheme + ":" + ("//" + host) + ("/" + path) + behind == scheme + ("://" + host + "/") + path + behind
    ensures scheme + ":" + "" + ("//" + host + "/" + path) + behind == scheme + ("://" + host + "/") + path + behind
  {
    assert ":" + ("//" + host) + "/" == "://" + host + "/";
  }

  lemma TargetText(isStandard: bool, scheme: string, action: string, query: Option<string>)
    ensures var a := ParsedAction(action);
      Target(isStandard, scheme, action).(query := query).Text()
        == scheme + "://x-callback-url/" + a.path + Behind(query, a.fragment)
  {
    var a := ParsedAction(action);
    Assemble(scheme, HOST, a.path, Behind(query, a.fragment));
    assert "://" + HOST + "/" == "://x-callback-url/";
  }

  lemma ActionBehind(front: string, a: Action)
    ensures front + a.path + Behind(a.query, a.fragment) == front + a.Text()
  {
  }

  /** Main result: the URL's text is the scheme, the x-callback-url host and the
      action, with the fields, if there are any, in a query that begins with the
      action's own and stands before the action's fragment. */
  lemma BuiltText(keep: set<char>, isStandard: bool, scheme: string, action: string, fields: seq<Field>)
    ensures var a := ParsedAction(action);
      WithQuery(keep, Target(isStandard, scheme, action), fields).Text() ==
        if fields == [] then scheme + "://x-callback-url/" + action
        else scheme + "://x-callback-url/" + a.path
               + Behind(Some(Extended(keep, a.query.GetOr(""), fields)), a.fragment)
  {
    var a := ParsedAction(action);
    var target := Target(isStandard, scheme, action);
    if fields == [] {
      TargetText(isStandard, scheme, action, a.query);
      assert target.(query := a.query) == target;
      ActionBehind(scheme + "://x-callback-url/", a);
      ActionIsKept(action);
    } else {
      TargetText(isStandard, scheme, action, Some(Extended(keep, a.query.GetOr(""), fields)));
    }
  }

  /** The action's own query stays at the front of the extended one. */
  lemma OwnQueryComesFirst(keep: set<char>, query: string, fields: seq<Field>)
    ensures query <= Extended(keep, query, fields)
  {
  }

  function WithQuery(keep: set<char>, url: Url, fields: seq<Field>): Url
    requires url.Url?
  {
    if fields == [] then url else url.(query := Some(Extended(keep, url.query.GetOr(""), fields)))
  }

  /** The callback URLs that are given, with their reserved names. */
  function Callbacks(success: Option<string>, error: Option<string>, cancel: Option<string>): seq<Field> {
    (if success.Some? then [(SUCCESS, success.value)] else []) +
    (if error.Some? then [(ERROR, error.value)] else []) +
    (if cancel.Some? then [(CANCEL, cancel.value)] else [])
  }

  /** `parameters` lists an ordered map: no key occurs twice. */
  ghost predicate DistinctKeys(fields: seq<Field>) {
    forall i, j :: 0 <= i < j < |fields| ==> fields[i].0 != fields[j].0
  }

  method CreateXCallbackURLWithParameters(
      keep: set<char>, isStandard: bool, scheme: string, action: string,
      success: Option<string>, error: Option<string>, cancel: Option<string>,
      parameters: seq<Field>) returns (url: Url)
    requires scheme != []
    ensures url == WithQuery(keep, Target(isStandard, scheme, action), Callbacks(success, error, cancel) + parameters)
    ensures IsXCallbackURL(url)
    ensures var a, fields := ParsedAction(action), Callbacks(success, error, cancel) + parameters;
      url.Text() ==
        if fields == [] then scheme + "://x-callback-url/" + action
        else scheme + "://x-callback-url/" + a.path
               + Behind(Some(Extended(keep, a.query.GetOr(""), fields)), a.fragment)
  {
    BuiltText(keep, isStandard, scheme, action, Callbacks(success, error, cancel) + parameters);
    ghost var target := Target(isStandard, scheme, action);
    ghost var callbacks := Callbacks(success, error, cancel);
    url := Target(isStandard, scheme, action);
    CallbacksInOrder(success, error, cancel);
    if success.Some? {
      url := AppendQueryParameter(keep, url, (SUCCESS, success.value), target, []);
    }
    if error.Some? {
      url := AppendQueryParameter(keep, url, (ERROR, error.value), target, Callbacks(success, None, None));
    }
    if cancel.Some? {
      url := AppendQueryParameter(keep, url, (CANCEL, cancel.value), target, Callbacks(success, error, None));
    }
    NoParameters(callbacks, parameters);
    for i := 0 to |parameters|
      invariant url == WithQuery(keep, target, callbacks + parameters[..i])
    {
      NextParameter(callbacks, parameters, i);
      url := AppendQueryParameter(keep, url, parameters[i], target, callbacks + parameters[..i]);
    }
    TargetIsXCallback(isStandard, scheme, action);
  }

  lemma NoParameters(callbacks: seq<Field>, parameters: seq<Field>)
    ensures callbacks + parameters[..0] == callbacks
    ensures parameters[..|parameters|] == parameters
  {
  }

  lemma NextParameter(callbacks: seq<Field>, parameters: seq<Field>, i: nat)
    requires i < |parameters|
    ensures callbacks + parameters[..i] + [parameters[i]] == callbacks + parameters[..i + 1]
  {
  }

  /** The callbacks are appended in the order success, error, cancel. */
  lemma CallbacksInOrder(success: Option<string>, error: Option<string>, cancel: Option<string>)
    ensures Callbacks(success, None, None) == if success.Some? then [] + [(SUCCESS, success.value)] else []
    ensures Callbacks(success, error, None) ==
      if error.Some? then Callbacks(success, None, None) + [(ERROR, error.value)] else Callbacks(success, None, None)
    ensures Callbacks(success, error, cancel) ==
      if cancel.Some? then Callbacks(success, error, None) + [(CANCEL, cancel.value)]
      else Callbacks(success, error, None)
  {
  }

  method AppendQueryParameter(keep: set<char>, url: Url, f: Field, ghost target: Url, ghost fields: seq<Field>)
    returns (url': Url)
    requires target.Url? && url == WithQuery(keep, target, fields)
    ensures url' == WithQuery(keep, target, fields + [f])
  {
    AppendExtends(keep, target.query.GetOr(""), fields, f);
    url' := url.(query := Some(Appended(keep, url.query.GetOr(""), f)));
  }

  lemma TargetIsXCallback(isStandard: bool, scheme: string, action: string)
    ensures IsXCallbackURL(Target(isStandard, scheme, action))
  {
    var rest := ParsedAction(action).path;
    var path := "//" + HOST + "/" + rest;
    assert path[2..] == HOST + ("/" + rest);
    SpanOfPrefix(HOST, "/" + rest, {'/'});
  }

  /** A valid URL is recognised exactly when its host, or else the first piece of
      its path after an optional "//", is the x-callback-url one. */
  lemma RecognisedIff(url: Url)
    requires url.Url?
    ensures IsXCallbackURL(url) <==>
      if url.isStandard then url.host == HOST
      else url.path == HOST || url.path == "//" + HOST || HOST + "/" <= url.path || "//" + (HOST + "/") <= url.path
  {
    HostHasNoSlash();
    if !url.isStandard {
      PathNames(url.path, HOST);
    }
  }

  lemma HostHasNoSlash()
    ensures '/' !in HOST && HOST != []
  {
  }

  lemma PathNames(path: string, host: string)
    requires '/' !in host && host != []
    ensures var piece := if "//" <= path then path[2..] else path;
      piece[..Span(piece, {'/'})] == host <==>
        path == host || path == "//" + host || host + "/" <= path || "//" + (host + "/") <= path
  {
    if "//" <= path {
      var piece := path[2..];
      assert path == "//" + piece && path[0] == '/';
      FirstPiece(piece, host);
      assert path != host && !(host + "/" <= path) by { assert host[0] == (host + "/")[0] != '/'; }
      BehindSlashes(piece, host);
      BehindSlashes(piece, host + "/");
    } else {
      FirstPiece(path, host);
      assert path != "//" + host && !("//" + (host + "/") <= path) by {
        assert "//" <= "//" + host && "//" <= "//" + (host + "/");
      }
    }
  }

  lemma BehindSlashes(a: string, b: string)
    ensures "//" + a == "//" + b <==> a == b
    ensures "//" + b <= "//" + a <==> b <= a
  {
    assert ("//" + a)[2..] == a && ("//" + b)[2..] == b;
    if "//" + b <= "//" + a { assert ("//" + a)[2..|b| + 2] == a[..|b|]; }
    if b <= a { assert ("//" + a)[..|b| + 2] == "//" + a[..|b|]; }
  }

  lemma FirstPiece(piece: string, host: string)
    requires '/' !in host
    ensures piece[..Span(piece, {'/'})] == host <==> piece == host || host + "/" <= piece
  {
    if piece == host {
      SpanOfPrefix(host, "", {'/'});
      assert host + "" == host;
    } else if host + "/" <= piece {
      var rest := piece[|host|..];
      assert rest[0] == (host + "/")[|host|] == '/';
      assert piece == host + rest by { assert piece[..|host|] == (host + "/")[..|host|] == host; }
      SpanOfPrefix(host, rest, {'/'});
    }
  }

  // ---------------------------------------------------------------- extraction

  /** A map insertion that leaves an existing entry alone. */
  function Inserted(m: map<string, string>, f: Field): map<string, string> {
    if f.0 in m then m else m[f.0 := f.1]
  }

  /** The map of the fields, the first of equal keys winning. */
  function FirstWins(fields: seq<Field>): map<string, string> {
    if fields == [] then map[]
    else Inserted(FirstWins(fields[..|fields| - 1]), fields[|fields| - 1])
  }

  /** What extraction makes of a raw field: only the value is unescaped. */
  function Decoded(f: Field): Field {
    (f.0, Unescaped(f.1))
  }

  function AllDecoded(fields: seq<Field>): seq<Field> {
    seq(|fields|, i requires 0 <= i < |fields| => Decoded(fields[i]))
  }

  lemma FirstWinsPush(done: seq<Field>, f: Field)
    ensures FirstWins(AllDecoded(done + [f])) == Inserted(FirstWins(AllDecoded(done)), Decoded(f))
  {
    assert AllDecoded(done + [f]) == AllDecoded(done) + [Decoded(f)];
    assert (AllDecoded(done) + [Decoded(f)])[..|done|] == AllDecoded(done);
  }

  lemma NextField(done: seq<Field>, query: string, f: Field, rest: string)
    requires query != [] && Split(query) == (f.0, f.1, rest)
    ensures done + RawFields(query) == done + [f] + RawFields(rest)
  {
    assert RawFields(query) == [f] + RawFields(rest);
  }

  function Extracted(url: Url): map<string, string>
    requires url.Url?
  {
    FirstWins(AllDecoded(RawFields(url.query.GetOr(""))))
  }

  method ExtractQueryParametersFromXCallbackURL(url: Url) returns (parameters: map<string, string>)
    requires IsXCallbackURL(url)
    ensures parameters == Extracted(url)
  {
    parameters := map[];
    var query := url.query.GetOr("");
    ghost var done: seq<Field> := [];
    while query != []
      invariant RawFields(url.query.GetOr("")) == done + RawFields(query)
      invariant parameters == FirstWins(AllDecoded(done))
      decreases |query|
    {
      var (key, value, rest) := Split(query);
      NextField(done, query, (key, value), rest);
      FirstWinsPush(done, (key, value));
      parameters := Inserted(parameters, (key, Unescaped(value)));
      done, query := done + [(key, value)], rest;
    }
    assert done + RawFields([]) == done;
  }

  // ---------------------------------------------------------------- round trip

  ghost predicate PrintableValues(fields: seq<Field>) {
    forall i :: 0 <= i < |fields| ==> Printable(fields[i].1)
  }

  ghost predicate PlainKeys(keep: set<char>, fields: seq<Field>) {
    forall i :: 0 <= i < |fields| ==> Plain(keep, fields[i].0)
  }

  /** What comes back: every value as it was, under its key as it was escaped. */
  function WithEscapedKeys(keep: set<char>, fields: seq<Field>): seq<Field> {
    seq(|fields|, i requires 0 <= i < |fields| => (Escaped(keep, fields[i].0), fields[i].1))
  }

  lemma {:induction false} DecodedFields(keep: set<char>, query: string, fields: seq<Field>)
    requires Table(keep) && PrintableValues(fields)
    ensures AllDecoded(RawFields(Extended(keep, query, fields)))
         == AllDecoded(Own(query, fields)) + WithEscapedKeys(keep, fields)
  {
    ExtendedFields(keep, query, fields);
    DecodedJoin(Own(query, fields), AllRaw(keep, fields));
    DecodedRaw(keep, fields);
  }

  lemma DecodedJoin(a: seq<Field>, b: seq<Field>)
    ensures AllDecoded(a + b) == AllDecoded(a) + AllDecoded(b)
  {
  }

  lemma DecodedRaw(keep: set<char>, fields: seq<Field>)
    requires Table(keep) && PrintableValues(fields)
    ensures AllDecoded(AllRaw(keep, fields)) == WithEscapedKeys(keep, fields)
  {
    forall i | 0 <= i < |fields| ensures Decoded(AllRaw(keep, fields)[i]) == WithEscapedKeys(keep, fields)[i] {
      EscapeRoundTrip(keep, fields[i].1);
    }
  }

  /** What extracting the parameters of the built URL gives, when the action has
      brought a query of its own (empty if it has not). */
  function Returned(keep: set<char>, query: string, fields: seq<Field>): map<string, string> {
    FirstWins(AllDecoded(RawFields(Extended(keep, query, fields))))
  }

  /** What was put in: the action's own fields, and those given. */
  function Given(query: string, fields: seq<Field>): seq<Field> {
    AllDecoded(Own(query, fields)) + fields
  }

  lemma {:induction false} FirstWinsMembers(fields: seq<Field>, key: string)
    ensures key in FirstWins(fields) <==> exists i :: 0 <= i < |fields| && fields[i].0 == key
    ensures forall i :: 0 <= i < |fields| && fields[i].0 == key && (forall j :: 0 <= j < i ==> fields[j].0 != key) ==>
              key in FirstWins(fields) && FirstWins(fields)[key] == fields[i].1
    decreases |fields|
  {
    if fields != [] {
      FirstWinsMembers(fields[..|fields| - 1], key);
      assert forall i :: 0 <= i < |fields| - 1 ==> fields[..|fields| - 1][i] == fields[i];
    }
  }

  /** Main result: with keys that need no escaping and printable values, extraction
      returns the action's own fields, the callbacks and the parameters, the first
      of equal keys winning. */
  lemma {:induction false} PlainKeysComeBack(keep: set<char>, query: string, fields: seq<Field>)
    requires Table(keep) && PrintableValues(fields) && PlainKeys(keep, fields)
    ensures Returned(keep, query, fields) == FirstWins(Given(query, fields))
  {
    DecodedFields(keep, query, fields);
    forall i | 0 <= i < |fields| ensures Escaped(keep, fields[i].0) == fields[i].0 {
      EscapeChangesUnlessPlain(keep, fields[i].0);
    }
    assert WithEscapedKeys(keep, fields) == fields;
  }

  ghost predicate Names(fields: seq<Field>, key: string) {
    exists i :: 0 <= i < |fields| && fields[i].0 == key
  }

  /** A parameter that has the name of a callback that is given loses to it, both
      lose to the action's own fields, and every other one comes back. */
  lemma {:induction false} CallbacksWin(
      keep: set<char>, query: string, callbacks: seq<Field>, parameters: seq<Field>, i: nat)
    requires Table(keep) && DistinctKeys(callbacks) && DistinctKeys(parameters)
    requires PrintableValues(callbacks + parameters) && PlainKeys(keep, callbacks + parameters)
    ensures var own := AllDecoded(Own(query, callbacks + parameters));
      var got := Returned(keep, query, callbacks + parameters);
      && (i < |callbacks| && !Names(own, callbacks[i].0) ==>
            callbacks[i].0 in got && got[callbacks[i].0] == callbacks[i].1)
      && (i < |parameters| && !Names(own, parameters[i].0) && !Names(callbacks, parameters[i].0) ==>
            parameters[i].0 in got && got[parameters[i].0] == parameters[i].1)
  {
    PlainKeysComeBack(keep, query, callbacks + parameters);
    FirstsComeBack(AllDecoded(Own(query, callbacks + parameters)), callbacks, parameters, i);
  }

  lemma {:induction false} FirstsComeBack(own: seq<Field>, callbacks: seq<Field>, parameters: seq<Field>, i: nat)
    requires DistinctKeys(callbacks) && DistinctKeys(parameters)
    ensures var got := FirstWins(own + (callbacks + parameters));
      && (i < |callbacks| && !Names(own, callbacks[i].0) ==>
            callbacks[i].0 in got && got[callbacks[i].0] == callbacks[i].1)
      && (i < |parameters| && !Names(own, parameters[i].0) && !Names(callbacks, parameters[i].0) ==>
            parameters[i].0 in got && got[parameters[i].0] == parameters[i].1)
  {
    if i < |callbacks| && !Names(own, callbacks[i].0) {
      CallbackIsFirst(callbacks, parameters, i);
      FirstAfter(own, callbacks + parameters, i);
    }
    if i < |parameters| && !Names(own, parameters[i].0) && !Names(callbacks, parameters[i].0) {
      ParameterIsFirst(callbacks, parameters, i);
      FirstAfter(own, callbacks + parameters, |callbacks| + i);
    }
  }

  lemma CallbackIsFirst(callbacks: seq<Field>, parameters: seq<Field>, i: nat)
    requires DistinctKeys(callbacks) && i < |callbacks|
    ensures var fields := callbacks + parameters;
      && fields[i] == callbacks[i]
      && forall j :: 0 <= j < i ==> fields[j].0 != callbacks[i].0
  {
  }

  lemma ParameterIsFirst(callbacks: seq<Field>, parameters: seq<Field>, i: nat)
    requires DistinctKeys(parameters) && i < |parameters| && !Names(callbacks, parameters[i].0)
    ensures var fields := callbacks + parameters;
      && fields[|callbacks| + i] == parameters[i]
      && forall j :: 0 <= j < |callbacks| + i ==> fields[j].0 != parameters[i].0
  {
    var fields := callbacks + parameters;
    forall j | 0 <= j < |callbacks| + i ensures fields[j].0 != parameters[i].0 {
      if j < |callbacks| { assert fields[j] == callbacks[j]; }
      else { assert fields[j] == parameters[j - |callbacks|]; }
    }
  }

  /** The first field with its key comes back. */
  lemma {:induction false} FirstAfter(own: seq<Field>, fields: seq<Field>, i: nat)
    requires i < |fields| && !Names(own, fields[i].0)
    requires forall j :: 0 <= j < i ==> fields[j].0 != fields[i].0
    ensures var got := FirstWins(own + fields);
      fields[i].0 in got && got[fields[i].0] == fields[i].1
  {
    var all := own + fields;
    FirstWinsMembers(all, fields[i].0);
    assert all[|own| + i] == fields[i];
    forall j | 0 <= j < |own| + i ensures all[j].0 != fields[i].0 {
      if j < |own| { assert all[j] == own[j]; } else { assert all[j] == fields[j - |own|]; }
    }
  }

  lemma {:induction false} CallbackComesBack(
      keep: set<char>, query: string, callbacks: seq<Field>, parameters: seq<Field>, f: Field)
    requires Table(keep) && DistinctKeys(callbacks) && DistinctKeys(parameters) && f in callbacks
    requires PrintableValues(callbacks + parameters) && PlainKeys(keep, callbacks + parameters)
    requires !Names(AllDecoded(Own(query, callbacks + parameters)), f.0)
    ensures var got := Returned(keep, query, callbacks + parameters); f.0 in got && got[f.0] == f.1
  {
    var i :| 0 <= i < |callbacks| && callbacks[i] == f;
    CallbacksWin(keep, query, callbacks, parameters, i);
  }

  lemma ReservedNames(success: Option<string>, error: Option<string>, cancel: Option<string>)
    ensures var callbacks := Callbacks(success, error, cancel);
      && DistinctKeys(callbacks)
      && (success.Some? ==> ("x-success", success.value) in callbacks)
      && (error.Some? ==> ("x-error", error.value) in callbacks)
      && (cancel.Some? ==> ("x-cancel", cancel.value) in callbacks)
      && (Names(callbacks, "x-success") <==> success.Some?)
      && (Names(callbacks, "x-error") <==> error.Some?)
      && (Names(callbacks, "x-cancel") <==> cancel.Some?)
  {
    var callbacks := Callbacks(success, error, cancel);
    assert SUCCESS[2] != ERROR[2] && SUCCESS[2] != CANCEL[2] && ERROR[2] != CANCEL[2];
    var c := if cancel.Some? then [(CANCEL, cancel.value)] else [];
    var e := if error.Some? then [(ERROR, error.value)] else [];
    var u := if success.Some? then [(SUCCESS, success.value)] else [];
    assert callbacks == u + e + c;
    if success.Some? { assert callbacks[0] == (SUCCESS, success.value); }
    if error.Some? { assert callbacks[|u|] == (ERROR, error.value); }
    if cancel.Some? { assert callbacks[|u| + |e|] == (CANCEL, cancel.value); }
  }

  /** A key that is nowhere among what was put in does not come back. */
  lemma {:induction false} NothingElseComesBack(keep: set<char>, query: string, fields: seq<Field>, key: string)
    requires Table(keep) && PrintableValues(fields) && PlainKeys(keep, fields)
    requires !Names(AllDecoded(Own(query, fields)), key) && !Names(fields, key)
    ensures key !in Returned(keep, query, fields)
  {
    PlainKeysComeBack(keep, query, fields);
    NamesJoin(AllDecoded(Own(query, fields)), fields, key);
    FirstWinsMembers(Given(query, fields), key);
    assert !Names(Given(query, fields), key);
  }

  /** Main result, from end to end: extracting from the built URL gives each callback
      URL under its reserved name, and no reserved name that was not given. Fields in
      the action's own query come first and may shadow them. */
  lemma {:induction false} CallbackUrlsComeBack(
      keep: set<char>, isStandard: bool, scheme: string, action: string,
      success: Option<string>, error: Option<string>, cancel: Option<string>, parameters: seq<Field>)
    requires Table(keep) && DistinctKeys(parameters)
    requires var fields := Callbacks(success, error, cancel) + parameters;
      PrintableValues(fields) && PlainKeys(keep, fields)
    ensures var fields := Callbacks(success, error, cancel) + parameters;
      var own := AllDecoded(Own(ParsedAction(action).query.GetOr(""), fields));
      var got := Extracted(WithQuery(keep, Target(isStandard, scheme, action), fields));
      && (!Names(own, "x-success") ==>
            && (success.Some? ==> "x-success" in got && got["x-success"] == success.value)
            && (success.None? && !Names(parameters, "x-success") ==> "x-success" !in got))
      && (!Names(own, "x-error") ==>
            && (error.Some? ==> "x-error" in got && got["x-error"] == error.value)
            && (error.None? && !Names(parameters, "x-error") ==> "x-error" !in got))
      && (!Names(own, "x-cancel") ==>
            && (cancel.Some? ==> "x-cancel" in got && got["x-cancel"] == cancel.value)
            && (cancel.None? && !Names(parameters, "x-cancel") ==> "x-cancel" !in got))
  {
    var callbacks, query := Callbacks(success, error, cancel), ParsedAction(action).query.GetOr("");
    ReservedNames(success, error, cancel);
    OneCallback(keep, query, callbacks, parameters, "x-success", success);
    OneCallback(keep, query, callbacks, parameters, "x-error", error);
    OneCallback(keep, query, callbacks, parameters, "x-cancel", cancel);
  }

  lemma {:induction false} OneCallback(
      keep: set<char>, query: string, callbacks: seq<Field>, parameters: seq<Field>, name: string, url: Option<string>)
    requires Table(keep) && DistinctKeys(callbacks) && DistinctKeys(parameters)
    requires PrintableValues(callbacks + parameters) && PlainKeys(keep, callbacks + parameters)
    requires url.Some? ==> (name, url.value) in callbacks
    requires Names(callbacks, name) <==> url.Some?
    ensures var got := Returned(keep, query, callbacks + parameters);
      !Names(AllDecoded(Own(query, callbacks + parameters)), name) ==>
        && (url.Some? ==> name in got && got[name] == url.value)
        && (url.None? && !Names(parameters, name) ==> name !in got)
  {
    if !Names(AllDecoded(Own(query, callbacks + parameters)), name) {
      if url.Some? {
        CallbackComesBack(keep, query, callbacks, parameters, (name, url.value));
      } else if !Names(parameters, name) {
        NamesJoin(callbacks, parameters, name);
        NothingElseComesBack(keep, query, callbacks + parameters, name);
      }
    }
  }

  lemma NamesJoin(a: seq<Field>, b: seq<Field>, key: string)
    ensures Names(a + b, key) ==> Names(a, key) || Names(b, key)
  {
    if Names(a + b, key) {
      var both := a + b;
      var i :| 0 <= i < |both| && both[i].0 == key;
      assert if i < |a| then both[i] == a[i] else both[i] == b[i - |a|];
    }
  }

  // ------------------------------------------------- exactly when it comes back

  function Longest(fields: seq<Field>): nat {
    if fields == [] then 0
    else
      var before, last := Longest(fields[..|fields| - 1]), |fields[|fields| - 1].0|;
      if last > before then last else before
  }

  lemma {:induction false} LongestIsUpperBound(fields: seq<Field>, i: nat)
    requires i < |fields|
    ensures |fields[i].0| <= Longest(fields)
    decreases |fields|
  {
    if i < |fields| - 1 {
      LongestIsUpperBound(fields[..|fields| - 1], i);
    }
  }

  /** If the keys that come back are the keys given, the escaped form of a key that
      needs escaping is again a given key; it cannot be one of the action's own. */
  lemma {:induction false} EscapedKeyIsGiven(keep: set<char>, query: string, fields: seq<Field>, i: nat)
    returns (j: nat)
    requires Table(keep) && PrintableValues(fields) && PlainKeys(keep, Own(query, fields))
    requires i < |fields| && !Plain(keep, fields[i].0)
    requires Returned(keep, query, fields).Keys == FirstWins(Given(query, fields)).Keys
    ensures j < |fields| && fields[j].0 == Escaped(keep, fields[i].0)
  {
    var own, escaped := AllDecoded(Own(query, fields)), WithEscapedKeys(keep, fields);
    var key := Escaped(keep, fields[i].0);
    DecodedFields(keep, query, fields);
    assert key in Returned(keep, query, fields).Keys by {
      assert escaped[i] == (key, fields[i].1);
      KeyOfSecond(own, escaped, i);
    }
    EscapeChangesUnlessPlain(keep, fields[i].0);
    forall k | 0 <= k < |own| ensures own[k].0 != key {
      assert own[k].0 == Own(query, fields)[k].0;
    }
    j := KeyFromSecond(own, fields, key);
  }

  lemma {:induction false} KeyOfSecond(a: seq<Field>, b: seq<Field>, i: nat)
    requires i < |b|
    ensures b[i].0 in FirstWins(a + b)
  {
    FirstWinsMembers(a + b, b[i].0);
    var all := a + b;
    assert all[|a| + i] == b[i];
  }

  lemma {:induction false} KeyFromSecond(a: seq<Field>, b: seq<Field>, key: string) returns (j: nat)
    requires key in FirstWins(a + b) && forall k :: 0 <= k < |a| ==> a[k].0 != key
    ensures j < |b| && b[j].0 == key
  {
    FirstWinsMembers(a + b, key);
    var all := a + b;
    assert forall k :: 0 <= k < |a| ==> all[k] == a[k];
    var k :| 0 <= k < |all| && all[k].0 == key;
    j := k - |a|;
    assert all[k] == b[j];
  }

  /** Then a key that needs escaping would start an endless chain of longer keys. */
  lemma {:induction false} LongerAndLongerKeys(keep: set<char>, query: string, fields: seq<Field>, i: nat, n: nat)
    returns (j: nat)
    requires Table(keep) && PrintableValues(fields) && PlainKeys(keep, Own(query, fields))
    requires i < |fields| && !Plain(keep, fields[i].0)
    requires Returned(keep, query, fields).Keys == FirstWins(Given(query, fields)).Keys
    ensures j < |fields| && !Plain(keep, fields[j].0) && ' ' !in fields[j].0 && |fields[j].0| >= n
    decreases n
  {
    j := EscapedKeyIsGiven(keep, query, fields, i);
    EscapeChangesUnlessPlain(keep, fields[i].0);
    EscapedIsOneToken(keep, fields[i].0);
    if n > 0 {
      var k := LongerAndLongerKeys(keep, query, fields, i, n - 1);
      j := EscapedKeyIsGiven(keep, query, fields, k);
      EscapeChangesUnlessPlain(keep, fields[k].0);
      EscapedIsOneToken(keep, fields[k].0);
    }
  }

  /** Main result: what was put in comes back exactly when every key given is free
      of characters that need escaping; extraction does not unescape keys. The
      action's own query, if it has one, has such keys. */
  lemma {:induction false} ComesBackIffKeysArePlain(keep: set<char>, query: string, fields: seq<Field>)
    requires Table(keep) && PrintableValues(fields) && PlainKeys(keep, Own(query, fields))
    ensures Returned(keep, query, fields) == FirstWins(Given(query, fields)) <==> PlainKeys(keep, fields)
  {
    if PlainKeys(keep, fields) {
      PlainKeysComeBack(keep, query, fields);
    } else if Returned(keep, query, fields) == FirstWins(Given(query, fields)) {
      var i :| 0 <= i < |fields| && !Plain(keep, fields[i].0);
      var j := LongerAndLongerKeys(keep, query, fields, i, Longest(fields) + 1);
      LongestIsUpperBound(fields, j);
      assert false;
    }
  }

  // ------------------------------------------------------- the unreserved table

  /** The unreserved characters of section 2.3 of RFC 3986. */
  const UNRESERVED: set<char> :=
    set c: char | ('a' <= c <= 'z' || 'A' <= c <= 'Z' || '0' <= c <= '9' || c in {'-', '.', '_', '~'}) :: c

  lemma UnreservedIsTable()
    ensures Table(UNRESERVED)
    ensures EscapedChar(UNRESERVED, ':') == "%3A" && EscapedChar(UNRESERVED, '/') == "%2F"
    ensures EscapedChar(UNRESERVED, '?') == "%3F" && EscapedChar(UNRESERVED, '=') == "%3D"
    ensures EscapedChar(UNRESERVED, '%') == "%25" && EscapedChar(UNRESERVED, ' ') == "+"
  {
  }

  /** A key with a space comes back with a plus. */
  lemma KeyComesBackEscaped()
    ensures Returned(UNRESERVED, "", [("a b", "v")]) == map["a+b" := "v"]
  {
    UnreservedIsTable();
    SpaceBecomesPlus(UNRESERVED, 'a', 'b');
    OneField(UNRESERVED, "a b", "a+b", "v");
  }

  lemma SpaceBecomesPlus(keep: set<char>, a: char, b: char)
    requires a in keep && b in keep && ' ' !in keep
    ensures Escaped(keep, [a, ' ', b]) == [a, '+', b]
  {
    assert [a, ' ', b][1..] == [' ', b] && [' ', b][1..] == [b] && [b][1..] == [];
    assert Escaped(keep, [b]) == [b];
    assert Escaped(keep, [' ', b]) == ['+', b];
  }

  lemma OneField(keep: set<char>, key: string, escaped: string, value: string)
    requires Table(keep) && Printable(value) && Escaped(keep, key) == escaped
    ensures Returned(keep, "", [(key, value)]) == map[escaped := value]
  {
    DecodedFields(keep, "", [(key, value)]);
    assert AllDecoded(Own("", [(key, value)])) == [];
    var back := [(escaped, value)];
    assert WithEscapedKeys(keep, [(key, value)]) == back;
    assert back[..|back| - 1] == [] && FirstWins(back) == Inserted(FirstWins([]), back[0]);
  }
}
