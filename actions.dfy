/** The main process's `perform-action` handler and its permission check. The automation
    driver, `exec` and `spawn` are outside; what the handler asks of them is an `Effect`. */
module Actions {
  import opened Wrappers
  import opened JsText
  import Shell

  /** Application aliases understood by the `app` action. */
  const AppMap: map<string, string> := map[
    "calculator" := "calc",
    "notepad" := "notepad",
    "vscode" := "code",
    "vs code" := "code",
    "visual studio code" := "code",
    "terminal" := "cmd",
    "explorer" := "explorer",
    "chrome" := "chrome"
  ]

  /** The own keys of an object literal are not all it answers to: these lower-case names
      reach `Object.prototype` members, whose string forms appear in the command. */
  function InheritedMember(name: string): Option<string> {
    if name == "constructor" then Some("function Object() { [native code] }")
    else if name == "__proto__" then Some("[object Object]")
    else None
  }

  /** The command for `app` as written: `appMap[appName]` also finds inherited members. */
  function AppCommandAsWritten(app: string): string {
    var appName := LowerAscii(app);
    if appName in AppMap then "start " + AppMap[appName]
    else if InheritedMember(appName).Some? then "start " + InheritedMember(appName).value
    else "start \"\" \"" + app + "\""
  }

  /** The command for `app` when only the aliases listed count. */
  function AppCommand(app: string): string {
    var appName := LowerAscii(app);
    if appName in AppMap then "start " + AppMap[appName] else "start \"\" \"" + app + "\""
  }

  /** Known aliases are matched regardless of case; every other name is launched by its
      original spelling in double quotes. */
  lemma AppCommandSpec(app: string)
    ensures LowerAscii(app) in AppMap ==> AppCommand(app) == "start " + AppMap[LowerAscii(app)]
    ensures LowerAscii(app) !in AppMap ==> AppCommand(app) == "start \"\" \"" + app + "\""
    ensures forall other :: LowerAscii(other) == LowerAscii(app) && LowerAscii(app) in AppMap ==>
      AppCommand(other) == AppCommand(app)
  {
  }

  /** As written, a name such as `Constructor` launches the text of a function instead of
      an application of that name. */
  lemma InheritedNameMisread(app: string)
    requires LowerAscii(app) == "constructor"
    ensures AppCommandAsWritten(app) == "start " + "function Object() { [native code] }"
    ensures AppCommand(app) == "start \"\" \"" + app + "\""
  {
    assert "constructor" !in AppMap;
  }

  /** The lookup as written and the intended one differ exactly on the names that reach an
      inherited member. */
  lemma AsWrittenAgrees(app: string)
    ensures InheritedMember(LowerAscii(app)).None? ==> AppCommandAsWritten(app) == AppCommand(app)
    ensures InheritedMember(LowerAscii(app)).Some? ==> AppCommandAsWritten(app) != AppCommand(app)
  {
    var name := LowerAscii(app);
    if InheritedMember(name).Some? {
      assert name !in AppMap;
      var w := AppCommandAsWritten(app);
      var c := AppCommand(app);
      assert w[6] != '"' by { if name == "constructor" { assert w[6] == 'f'; } else { assert w[6] == '['; } }
      assert c[6] == '"';
    }
  }

  /** `Constructor` is such a name. */
  lemma LowerConstructor(app: string)
    requires app == "Constructor"
    ensures LowerAscii(app) == "constructor"
  {
    var tail := app[1..];
    assert tail == "onstructor";
    LowerAsciiFixed(tail);
    assert LowerAscii(app) == [LowerChar(app[0])] + LowerAscii(tail);
  }

  /** `text.replace(/"/g, '\\"')`. */
  function EscapeQuotes(t: string): (r: string)
    ensures |r| >= |t|
    ensures r != [] ==> r[0] != '"'
    ensures forall k :: 0 < k < |r| && r[k] == '"' ==> r[k - 1] == '\\'
  {
    if t == [] then []
    else (if t[0] == '"' then "\\\"" else [t[0]]) + EscapeQuotes(t[1..])
  }

  /** Every `"` is preceded by a backslash afterwards, and nothing else changed: turning
      each `\"` back into `"` (left to right) restores the text exactly. */
  lemma {:induction false} EscapeQuotesRoundTrip(t: string)
    ensures Shell.Unescape(EscapeQuotes(t)) == t
    decreases |t|
  {
    if t != [] {
      var rest := EscapeQuotes(t[1..]);
      EscapeQuotesRoundTrip(t[1..]);
      if t[0] == '"' {
        assert EscapeQuotes(t) == "\\\"" + rest;
        assert EscapeQuotes(t)[2..] == rest;
      } else {
        assert EscapeQuotes(t) == [t[0]] + rest;
        assert EscapeQuotes(t)[1..] == rest;
        if t[0] == '\\' && rest != [] {
          EscapeStartsFree(t[1..]);
        }
      }
    }
  }

  lemma EscapeStartsFree(t: string)
    requires t != []
    ensures EscapeQuotes(t)[0] != '"'
  {
  }

  /** The `action` object; `kind` is its `type` field. */
  datatype Action = Action(kind: Option<string>, url: Option<string>, query: Option<string>, app: Option<string>, text: Option<string>)

  /** What the handler asks of the host. */
  datatype Effect = Navigate(url: Option<string>) | Search(query: Option<string>) | Exec(command: string) | SendKeys(text: string) | NoEffect

  /** The handler's resolved string and the effect it started. `hostFailure` is the message
      the awaited automation call throws, if it does. */
  datatype Outcome = Outcome(reply: string, effect: Effect)

  function ReadFailure(property: string): string {
    "Cannot read properties of undefined (reading '" + property + "')"
  }

  function PerformAction(action: Action, hostFailure: Option<string>): (o: Outcome) {
    if action.kind == Some("open") then
      match hostFailure
      case Some(m) => Outcome("Failed: " + m, Navigate(action.url))
      case None => Outcome("Opened " + Show(action.url), Navigate(action.url))
    else if action.kind == Some("search") then
      match hostFailure
      case Some(m) => Outcome("Failed: " + m, Search(action.query))
      case None => Outcome("Searched for " + Show(action.query), Search(action.query))
    else if action.kind == Some("app") then
      match action.app
      case None => Outcome("Failed: " + ReadFailure("toLowerCase"), NoEffect)
      case Some(app) => Outcome("Launching " + app, Exec(AppCommandAsWritten(app)))
    else if action.kind == Some("type") then
      match action.text
      case None => Outcome("Failed: " + ReadFailure("replace"), NoEffect)
      case Some(t) => Outcome("Typing: " + t, SendKeys(EscapeQuotes(t)))
    else Outcome("Unknown action", NoEffect)
  }

  /** The replies of the four actions and of an unknown one. A launch and a typing reply
      quote the original, unescaped input whatever happens to the started process. */
  lemma PerformActionReplies(action: Action, hostFailure: Option<string>)
    ensures var o := PerformAction(action, hostFailure);
      && (action.kind == Some("open") && hostFailure.None? ==> o.reply == "Opened " + Show(action.url))
      && (action.kind == Some("search") && hostFailure.None? ==> o.reply == "Searched for " + Show(action.query))
      && (action.kind == Some("app") && action.app.Some? ==>
            o.reply == "Launching " + action.app.value && o.effect == Exec(AppCommandAsWritten(action.app.value)))
      && (action.kind == Some("type") && action.text.Some? ==>
            o.reply == "Typing: " + action.text.value && Shell.Unescape(o.effect.text) == action.text.value)
      && (action.kind !in {Some("open"), Some("search"), Some("app"), Some("type")} ==>
            o == Outcome("Unknown action", NoEffect))
  {
    if action.kind == Some("type") && action.text.Some? {
      EscapeQuotesRoundTrip(action.text.value);
    }
  }

  /** `Array.prototype.includes` on strings: a scan from the front. */
  function Includes(xs: seq<string>, x: string): bool {
    xs != [] && (xs[0] == x || Includes(xs[1..], x))
  }

  /** The scan finds exactly the elements of the array. */
  lemma {:induction false} IncludesIsMembership(xs: seq<string>, x: string)
    ensures Includes(xs, x) <==> x in xs
    decreases |xs|
  {
    if xs != [] {
      IncludesIsMembership(xs[1..], x);
      assert xs == [xs[0]] + xs[1..];
    }
  }

  const AllowedPermissions: seq<string> := ["media", "audioCapture"]

  /** The answer the permission request handler passes to its callback. */
  predicate PermissionGranted(permission: string) {
    Includes(AllowedPermissions, permission)
  }

  /** The handler grants exactly the two voice permissions and refuses every other request. */
  lemma PermissionSpec(permission: string)
    ensures PermissionGranted(permission) <==> permission == "media" || permission == "audioCapture"
  {
    IncludesIsMembership(AllowedPermissions, permission);
  }
}
