/** Method dispatch: the guard `CanHandleMethod` and the separately written router `HandleMethod`. */
module Dispatch {
  import opened Wrappers
  import opened Strings

  /** A method handler: one of the four built-in executors, or one that a server author supplies,
      of which only the set of methods it accepts is known. */
  datatype Handler =
    | ToolExecutor
    | PromptExecutor
    | ResourceExecutor
    | UtilitiesExecutor
    | Custom(accepts: string -> bool)

  /** Any field may be nil. */
  datatype Executors = Executors(
    tools: Option<Handler>,
    prompts: Option<Handler>,
    resources: Option<Handler>,
    utilities: Option<Handler>,
    experimental: Option<Handler>)

  /** `NilCall` is the panic of calling a method on a nil executor. */
  datatype Route = Tools | Prompts | Resources | Utilities | Experimental | NotFound | NilCall

  predicate ToolMethod(m: string) {
    m == "tools/list" || m == "tools/get" || m == "tools/call"
  }

  predicate PromptMethod(m: string) {
    m == "prompts/list" || m == "prompts/get"
  }

  predicate ResourceMethod(m: string) {
    m == "resources/list" || m == "resources/read" || m == "resources/subscribe" ||
    m == "resources/unsubscribe" || m == "resources/templates/list"
  }

  predicate UtilityMethod(m: string) {
    m == "ping"
  }

  function DefaultExecutors(experimental: Option<Handler>): Executors {
    Executors(Some(ToolExecutor), Some(PromptExecutor), Some(ResourceExecutor), Some(UtilitiesExecutor), experimental)
  }

  /** A handler's own `CanHandleMethod`. */
  predicate CanHandle(h: Handler, m: string) {
    match h
    case ToolExecutor => ToolMethod(m)
    case PromptExecutor => PromptMethod(m)
    case ResourceExecutor => ResourceMethod(m)
    case UtilitiesExecutor => UtilityMethod(m)
    case Custom(accepts) => accepts(m)
  }

  predicate Accepts(h: Option<Handler>, m: string) {
    h.Some? && CanHandle(h.value, m)
  }

  predicate CanHandleMethod(e: Executors, m: string) {
    if Accepts(e.tools, m) then true
    else if Accepts(e.prompts, m) then true
    else if Accepts(e.resources, m) then true
    else if Accepts(e.utilities, m) then true
    else Accepts(e.experimental, m)
  }

  /** The tail of the router: utilities, then the experimental handler without a nil test. */
  function FallThrough(e: Executors, m: string): Route {
    if Accepts(e.utilities, m) then Utilities
    else if e.experimental.None? then NilCall
    else if CanHandle(e.experimental.value, m) then Experimental
    else NotFound
  }

  /** One case of the router's switch: the executor is called without a nil test. */
  function Prefixed(h: Option<Handler>, own: Route, e: Executors, m: string): Route {
    if h.None? then NilCall
    else if CanHandle(h.value, m) then own
    else FallThrough(e, m)
  }

  /** The router's test: at least two parts at "/", the first being `head`. */
  predicate HasPrefix(m: string, head: string) {
    var ms := Split(m, '/');
    |ms| >= 2 && ms[0] == head
  }

  /** A method that leads to an executor leads to one that is there and accepts it. */
  function HandleMethod(e: Executors, m: string): (route: Route)
    ensures Calls(route) ==> Accepts(HandlerAt(e, route), m)
  {
    if HasPrefix(m, "tools") then Prefixed(e.tools, Tools, e, m)
    else if HasPrefix(m, "resources") then Prefixed(e.resources, Resources, e, m)
    else if HasPrefix(m, "prompts") then Prefixed(e.prompts, Prompts, e, m)
    else FallThrough(e, m)
  }

  predicate Calls(route: Route) {
    route != NotFound && route != NilCall
  }

  function HandlerAt(e: Executors, route: Route): Option<Handler> {
    match route
    case Tools => e.tools
    case Prompts => e.prompts
    case Resources => e.resources
    case Utilities => e.utilities
    case Experimental => e.experimental
    case _ => None
  }

  /** The first executor, in the guard's order, that accepts `m`. */
  function FirstAccepting(e: Executors, m: string): Route {
    if Accepts(e.tools, m) then Tools
    else if Accepts(e.prompts, m) then Prompts
    else if Accepts(e.resources, m) then Resources
    else if Accepts(e.utilities, m) then Utilities
    else if Accepts(e.experimental, m) then Experimental
    else NotFound
  }

  lemma PrefixOf(head: string, tail: string)
    requires '/' !in head
    ensures HasPrefix(head + "/" + tail, head)
  {
    SplitAfter(head, '/', tail);
    assert head + ['/'] + tail == head + "/" + tail;
  }

  lemma BeginsWith(m: string, head: string)
    requires '/' !in head && |head| < |m| && m[..|head|] == head && m[|head|] == '/'
    ensures HasPrefix(m, head)
  {
    PrefixOf(head, m[|head| + 1..]);
    assert m == head + "/" + m[|head| + 1..];
  }

  // Every method of a built-in prefixed executor carries the prefix the router switches on.

  lemma ToolPrefix(m: string)
    requires ToolMethod(m)
    ensures HasPrefix(m, "tools")
  {
    hide HasPrefix;
    assert m[..5] == "tools" && m[5] == '/';
    BeginsWith(m, "tools");
  }

  lemma PromptPrefix(m: string)
    requires PromptMethod(m)
    ensures HasPrefix(m, "prompts")
  {
    hide HasPrefix;
    assert m[..7] == "prompts" && m[7] == '/';
    BeginsWith(m, "prompts");
  }

  lemma ResourcePrefix(m: string)
    requires ResourceMethod(m)
    ensures HasPrefix(m, "resources")
  {
    hide HasPrefix;
    assert m[..9] == "resources" && m[9] == '/';
    BeginsWith(m, "resources");
  }

  lemma UtilityUnprefixed(m: string)
    requires UtilityMethod(m)
    ensures |Split(m, '/')| == 1
  {
  }

  /** Guard and router agree on every method string: what the guard admits goes to the first
      executor that accepts it, and a nil experimental handler is called exactly on the strings
      the guard refuses. */
  lemma {:induction false} GuardAndRouterAgree(experimental: Option<Handler>, m: string)
    ensures var e := DefaultExecutors(experimental);
            && (CanHandleMethod(e, m) ==> HandleMethod(e, m) == FirstAccepting(e, m) != NotFound)
            && (HandleMethod(e, m) == NilCall <==> experimental.None? && !CanHandleMethod(e, m))
            && (HandleMethod(e, m) == NotFound <==> experimental.Some? && !CanHandleMethod(e, m))
  {
    assert |"tools"| == 5 && |"prompts"| == 7 && |"resources"| == 9;
    if ToolMethod(m) {
      ToolPrefix(m);
    } else if PromptMethod(m) {
      PromptPrefix(m);
    } else if ResourceMethod(m) {
      ResourcePrefix(m);
    } else if UtilityMethod(m) {
      UtilityUnprefixed(m);
    }
  }

  /** With the default executors the router takes exactly these methods to these executors, all others
      to the experimental handler if that accepts them, and to nobody if it does not. */
  lemma {:induction false} DefaultRoutes(experimental: Option<Handler>, m: string)
    ensures var route := HandleMethod(DefaultExecutors(experimental), m);
            && (route == Tools <==> m in {"tools/list", "tools/get", "tools/call"})
            && (route == Prompts <==> m in {"prompts/list", "prompts/get"})
            && (route == Resources <==>
                m in {"resources/list", "resources/read", "resources/subscribe", "resources/unsubscribe",
                      "resources/templates/list"})
            && (route == Utilities <==> m == "ping")
            && (route == NilCall ==> experimental.None?)
            && (route == NotFound ==> experimental.Some? && !CanHandle(experimental.value, m))
            && (route == Experimental ==> experimental.Some? && CanHandle(experimental.value, m))
  {
    hide HandleMethod, ToolMethod, PromptMethod, ResourceMethod, UtilityMethod;
    GuardAndRouterAgree(experimental, m);
    MethodsAreDisjoint(m);
    MethodSets(m);
  }

  lemma MethodSets(m: string)
    ensures ToolMethod(m) <==> m in {"tools/list", "tools/get", "tools/call"}
    ensures PromptMethod(m) <==> m in {"prompts/list", "prompts/get"}
    ensures ResourceMethod(m) <==>
            m in {"resources/list", "resources/read", "resources/subscribe", "resources/unsubscribe",
                  "resources/templates/list"}
    ensures UtilityMethod(m) <==> m == "ping"
  {
  }

  /** The executor that runs is the one the route is named for. */
  lemma DefaultHandlers(experimental: Option<Handler>)
    ensures var e := DefaultExecutors(experimental);
            && HandlerAt(e, Tools) == Some(ToolExecutor)
            && HandlerAt(e, Prompts) == Some(PromptExecutor)
            && HandlerAt(e, Resources) == Some(ResourceExecutor)
            && HandlerAt(e, Utilities) == Some(UtilitiesExecutor)
            && HandlerAt(e, Experimental) == experimental
  {
  }

  lemma MethodsAreDisjoint(m: string)
    ensures ToolMethod(m) ==> !PromptMethod(m) && !ResourceMethod(m) && !UtilityMethod(m)
    ensures PromptMethod(m) ==> !ResourceMethod(m) && !UtilityMethod(m)
    ensures ResourceMethod(m) ==> !UtilityMethod(m)
  {
    if m != "" {
      assert ToolMethod(m) ==> m[0] == 't';
      assert UtilityMethod(m) || PromptMethod(m) ==> m[0] == 'p';
      assert ResourceMethod(m) ==> m[0] == 'r';
      assert UtilityMethod(m) ==> m[1] == 'i';
      assert PromptMethod(m) ==> m[1] == 'r';
    }
  }

  /** The prefixed executor the router tries for `m` is missing. */
  predicate PrefixedIsNil(e: Executors, m: string) {
    (HasPrefix(m, "tools") && e.tools.None?) ||
    (HasPrefix(m, "resources") && e.resources.None?) ||
    (HasPrefix(m, "prompts") && e.prompts.None?)
  }

  /** For an executor set a server author supplies, agreement is not automatic: an admitted method
      reaches its first acceptor exactly when a prefixed acceptor carries its own prefix, and no
      nil executor stands under the prefix of a method meant for the other two. */
  lemma CustomExecutorsAgreeIff(e: Executors, m: string)
    requires CanHandleMethod(e, m)
    ensures HandleMethod(e, m) == FirstAccepting(e, m) <==>
      match FirstAccepting(e, m)
      case Tools => HasPrefix(m, "tools")
      case Prompts => HasPrefix(m, "prompts")
      case Resources => HasPrefix(m, "resources")
      case _ => !PrefixedIsNil(e, m)
  {
    assert |"tools"| == 5 && |"prompts"| == 7 && |"resources"| == 9;
  }

  /** It does fail: a tools executor that accepts "foo" gets past the guard, but without the prefix
      the router never asks it, and calls the missing experimental handler instead. */
  lemma CustomExecutorMissed()
    ensures var e := DefaultExecutors(None).(tools := Some(Custom(m => m == "foo")));
            CanHandleMethod(e, "foo") && FirstAccepting(e, "foo") == Tools && HandleMethod(e, "foo") == NilCall
  {
    assert |"foo"| == 3 && |"ping"| == 4;
    assert |Split("foo", '/')| == 1;
  }
}
