/**
 * Model of www/js/global.js: the page bootstrap.
 *
 * The document is abstracted to a map from selector to the inner HTML of the
 * element it matches (a selector not in the map matches nothing), and
 * everything the loader does that a developer can observe is one event of a
 * trace: a fetch, a module import, an entry-point invocation or a console
 * message.  Network results are the input `network` (what `fetch` of a URL
 * settles to) and dynamic imports the input `loader` (what `import` of a path
 * settles to).  Each `Promise.all` is run as a sequential loop in list order.
 */
module Bootstrap {
  import opened Wrappers

  type Url = string
  type Selector = string

  // ---------------------------------------------------------------------------
  // getHeadPartialUrl
  // ---------------------------------------------------------------------------

  /** `split('/').pop()`: the text after the last `/`, or all of `s` when it has none. */
  function LastPathSegment(s: string): (r: string)
    ensures |r| <= |s| && r == s[|s| - |r|..]
    ensures '/' !in r
    ensures |r| == |s| || s[|s| - |r| - 1] == '/'
  {
    if |s| == 0 || s[|s| - 1] == '/' then ""
    else
      var init := s[..|s| - 1];
      var r := LastPathSegment(init) + [s[|s| - 1]];
      assert init[|init| - (|r| - 1)..] + [s[|s| - 1]] == s[|s| - |r|..];
      r
  }

  /** `split('.')[0]`: the text before the first `.`, or all of `s` when it has none. */
  function BeforeFirstDot(s: string): (r: string)
    ensures |r| <= |s| && r == s[..|r|]
    ensures '.' !in r
    ensures |r| == |s| || s[|r|] == '.'
  {
    if |s| == 0 || s[0] == '.' then "" else [s[0]] + BeforeFirstDot(s[1..])
  }

  /** The page name: the last path segment cut at its first dot. */
  function PageName(pathname: string): string {
    BeforeFirstDot(LastPathSegment(pathname))
  }

  /** `getHeadPartialUrl` for `window.location.pathname == pathname`. */
  function HeadPartialUrl(pathname: string): Url {
    "includes/pages/" + PageName(pathname) + "-head.html"
  }

  /**
   * For the position `k` just after the last `/` of the path (0 when it has
   * none), the page name is the text from `k` up to the first `.` after it or
   * the end of the path.
   */
  lemma PageNameCharacterised(pathname: string, k: nat)
    requires k <= |pathname| && (k == 0 || pathname[k - 1] == '/') && '/' !in pathname[k..]
    ensures var name := PageName(pathname);
      && k + |name| <= |pathname| && name == pathname[k..k + |name|]
      && '/' !in name && '.' !in name
      && (k + |name| == |pathname| || pathname[k + |name|] == '.')
  {
    var seg := LastPathSegment(pathname);
    assert seg == pathname[k..];
    var name := BeforeFirstDot(seg);
    assert name == pathname[k..k + |name|];
  }

  /**
   * The head URL is `includes/pages/<name>-head.html` with a name free of
   * `/` and `.`; a path ending in `/` gives an empty name (there is no
   * fallback to "index").
   */
  lemma HeadPartialUrlShape(pathname: string)
    ensures var url := HeadPartialUrl(pathname);
      && |url| >= 25 && url[..15] == "includes/pages/" && url[|url| - 10..] == "-head.html"
      && '/' !in url[15..|url| - 10] && '.' !in url[15..|url| - 10]
    ensures |pathname| > 0 && pathname[|pathname| - 1] == '/' ==> HeadPartialUrl(pathname) == "includes/pages/-head.html"
  {
    var url := HeadPartialUrl(pathname);
    assert url[15..|url| - 10] == PageName(pathname);
  }

  /** A page `<dir>/<name>.html` selects the head partial `includes/pages/<name>-head.html`. */
  lemma HtmlPageHeadUrl(dir: string, name: string)
    requires '/' !in name && '.' !in name
    ensures HeadPartialUrl(dir + "/" + name + ".html") == "includes/pages/" + name + "-head.html"
  {
    var path := dir + "/" + name + ".html";
    var k := |dir| + 1;
    assert path[k..] == name + ".html";
    PageNameCharacterised(path, k);
    assert path[k + |name|] == '.';
  }

  // ---------------------------------------------------------------------------
  // Responses, messages and the trace
  // ---------------------------------------------------------------------------

  /** The parts of a fetch `Response` the loader reads. */
  datatype Response = Response(ok: bool, url: Url, statusText: string, text: string)

  /** What a `fetch` settles to: rejected (a network error) or a response. */
  datatype FetchResult = Rejected(reason: string) | Responded(response: Response)

  /** The errors a partial load rejects with. */
  datatype LoadError =
    | HttpError(url: Url, statusText: string)   // "Failed to load: <url>, status: <statusText>"
    | NetworkError(reason: string)

  /** `checkResponse`: the response text, or an error when the status is not ok. */
  function CheckResponse(r: Response): (result: Result<string, LoadError>)
    ensures result.Ok? <==> r.ok
    ensures result.Ok? ==> result.value == r.text
    ensures result.Err? ==> result.error == HttpError(r.url, r.statusText)
  {
    if !r.ok then Err(HttpError(r.url, r.statusText)) else Ok(r.text)
  }

  /** `fetch(url).then(checkResponse)`. */
  function Fetched(reply: FetchResult): (result: Result<string, LoadError>)
    ensures result.Ok? <==> reply.Responded? && reply.response.ok
    ensures result.Ok? ==> result.value == reply.response.text
    ensures reply.Rejected? ==> result == Err(NetworkError(reply.reason))
    ensures reply.Responded? && !reply.response.ok ==>
              result == Err(HttpError(reply.response.url, reply.response.statusText))
  {
    match reply
    case Rejected(reason) => Err(NetworkError(reason))
    case Responded(r) => CheckResponse(r)
  }

  /** A value a module exports under some name: a function (which may throw when called) or anything else. */
  datatype Export = Callable(throws: Option<string>) | NotCallable

  /** What a dynamic `import` settles to. */
  datatype ImportResult = ImportRejected(reason: string) | Imported(exports: map<string, Export>)

  /** The console method a message goes to. */
  datatype Level = Info | Warning | Error

  /** The console messages of the loader, with their arguments. */
  datatype Message =
    | SelectorNotFound(selector: Selector)                       // "Selector <s> not found in the DOM."
    | InitFunctionNotFound(initFunction: string, path: string)   // "Initialization function <f> not found in <p>"
    | ComponentLoadError(path: string, reason: string)           // "Error loading component <p>:"
    | PageInitError(error: LoadError)                            // "Error initializing page:"
    | PageInitializedMessage                                     // "Page initialized successfully"

  datatype Event =
    | Fetch(url: Url)
    | Import(path: string)
    | Invoke(path: string, initFunction: string)
    | Log(level: Level, message: Message)

  /** The document content and everything observed so far. */
  datatype Page = Page(dom: map<Selector, string>, trace: seq<Event>)

  datatype PartialRequest = PartialRequest(url: Url, selector: Selector)
  datatype ComponentRequest = ComponentRequest(path: string, initFunction: string)
  datatype Config = Config(partials: seq<PartialRequest>, components: seq<ComponentRequest>)

  /** `pageSetupConfig`, the table `initializePage` reads. */
  const PageSetupConfig := Config(
    [ PartialRequest("includes/components/header.html", "#header-placeholder"),
      PartialRequest("includes/components/hero.html", "#hero-placeholder"),
      PartialRequest("includes/components/cards.html", "#cards-placeholder"),
      PartialRequest("includes/components/contact.html", "#contact-placeholder"),
      PartialRequest("includes/components/footer.html", "#footer-placeholder") ],
    [ ComponentRequest("./components/navigation.js", "setupNavigation") ])

  const HeadPlaceholder: Selector := "#head-placeholder"

  // ---------------------------------------------------------------------------
  // Views of a trace
  // ---------------------------------------------------------------------------

  /** The events of `evs` that `f` selects, mapped by `f`, in order. */
  function Pick<T>(evs: seq<Event>, f: Event -> Option<T>): seq<T> {
    if evs == [] then [] else Pick(evs[..|evs| - 1], f) + PickOne(evs[|evs| - 1], f)
  }

  function PickOne<T>(e: Event, f: Event -> Option<T>): seq<T> {
    match f(e)
    case Some(x) => [x]
    case None => []
  }

  lemma {:induction false} PickAppend<T>(a: seq<Event>, b: seq<Event>, f: Event -> Option<T>)
    ensures Pick(a + b, f) == Pick(a, f) + Pick(b, f)
  {
    if b != [] {
      var b' := b[..|b| - 1];
      assert (a + b)[..|a + b| - 1] == a + b';
      assert (a + b)[|a + b| - 1] == b[|b| - 1];
      PickAppend(a, b', f);
      calc {
        Pick(a + b, f);
        Pick(a + b', f) + PickOne(b[|b| - 1], f);
        Pick(a, f) + Pick(b', f) + PickOne(b[|b| - 1], f);
      }
    } else {
      assert a + b == a;
    }
  }

  function FetchOf(e: Event): Option<Url> {
    if e.Fetch? then Some(e.url) else None
  }

  function ImportOf(e: Event): Option<string> {
    if e.Import? then Some(e.path) else None
  }

  function InvocationOf(e: Event): Option<ComponentRequest> {
    if e.Invoke? then Some(ComponentRequest(e.path, e.initFunction)) else None
  }

  /** The two messages that end `initializePage`: the error report of `handleError` and the success line. */
  function ReportOf(e: Event): Option<Message> {
    if e.Log? && (e.message.PageInitError? || e.message.PageInitializedMessage?) then Some(e.message) else None
  }

  /** The URLs fetched, in order. */
  function Fetches(evs: seq<Event>): seq<Url> { Pick(evs, FetchOf) }
  /** The module paths imported, in order. */
  function Imports(evs: seq<Event>): seq<string> { Pick(evs, ImportOf) }
  /** The entry points invoked, in order. */
  function Invocations(evs: seq<Event>): seq<ComponentRequest> { Pick(evs, InvocationOf) }
  /** The end-of-initialisation reports, in order. */
  function Reports(evs: seq<Event>): seq<Message> { Pick(evs, ReportOf) }

  lemma ViewsAppend(a: seq<Event>, b: seq<Event>)
    ensures Fetches(a + b) == Fetches(a) + Fetches(b)
    ensures Imports(a + b) == Imports(a) + Imports(b)
    ensures Invocations(a + b) == Invocations(a) + Invocations(b)
    ensures Reports(a + b) == Reports(a) + Reports(b)
  {
    PickAppend(a, b, FetchOf);
    PickAppend(a, b, ImportOf);
    PickAppend(a, b, InvocationOf);
    PickAppend(a, b, ReportOf);
  }

  lemma PickOfOne<T>(e: Event, f: Event -> Option<T>)
    ensures Pick([e], f) == PickOne(e, f)
  {
    assert [e][..0] == [];
    assert Pick([e], f) == Pick([], f) + PickOne(e, f);
  }

  lemma ViewsOfOne(e: Event)
    ensures Fetches([e]) == PickOne(e, FetchOf) && Imports([e]) == PickOne(e, ImportOf)
    ensures Invocations([e]) == PickOne(e, InvocationOf) && Reports([e]) == PickOne(e, ReportOf)
  {
    PickOfOne(e, FetchOf);
    PickOfOne(e, ImportOf);
    PickOfOne(e, InvocationOf);
    PickOfOne(e, ReportOf);
  }

  /** `q` continues the trace of `p`. */
  predicate Extends(p: Page, q: Page) {
    |q.trace| >= |p.trace| && q.trace[..|p.trace|] == p.trace
  }

  /** The events `q` added to the trace of `p`. */
  function Added(p: Page, q: Page): seq<Event>
    requires Extends(p, q)
  {
    q.trace[|p.trace|..]
  }

  lemma AddedChain(p: Page, q: Page, r: Page)
    requires Extends(p, q) && Extends(q, r)
    ensures Extends(p, r) && Added(p, r) == Added(p, q) + Added(q, r)
  {
    assert r.trace[..|p.trace|] == r.trace[..|q.trace|][..|p.trace|];
  }

  /** A view of what three successive stages added is the concatenation of each stage's view. */
  lemma PickOfThreeStages<T>(p: Page, a: Page, b: Page, q: Page, f: Event -> Option<T>)
    requires Extends(p, a) && Extends(a, b) && Extends(b, q)
    ensures Extends(p, q)
    ensures Pick(Added(p, q), f) == Pick(Added(p, a), f) + Pick(Added(a, b), f) + Pick(Added(b, q), f)
  {
    AddedChain(p, a, b);
    AddedChain(p, b, q);
    PickAppend(Added(p, a), Added(a, b), f);
    PickAppend(Added(p, b), Added(b, q), f);
  }

  /** A stage that reports nothing leaves the reports of what follows it unchanged. */
  lemma ReportsAfterSilent(p: Page, a: Page, q: Page)
    requires Extends(p, a) && Extends(a, q) && Reports(Added(p, a)) == []
    ensures Extends(p, q) && Reports(Added(p, q)) == Reports(Added(a, q))
  {
    AddedChain(p, a, q);
    PickAppend(Added(p, a), Added(a, q), ReportOf);
  }

  // ---------------------------------------------------------------------------
  // insertPartial, loadPartial, loadPartials
  // ---------------------------------------------------------------------------

  /** `insertPartial(content, selector)`. */
  function Inserted(p: Page, content: string, selector: Selector): Page {
    if selector in p.dom then p.(dom := p.dom[selector := content])
    else p.(trace := p.trace + [Log(Error, SelectorNotFound(selector))])
  }

  /** A page together with the error a load rejected with, if it did. */
  datatype Loaded = Loaded(page: Page, error: Option<LoadError>)

  /** `loadPartial(url, selector)` when the fetch of `url` settles to `reply`. */
  function PartialLoaded(p: Page, url: Url, selector: Selector, reply: FetchResult): Loaded {
    var fetched := p.(trace := p.trace + [Fetch(url)]);
    match Fetched(reply)
    case Ok(text) => Loaded(Inserted(fetched, text, selector), None)
    case Err(e) => Loaded(fetched, Some(e))
  }

  /** `loadPartials(partials)`: every partial is loaded; the result rejects with the first error. */
  function PartialsLoaded(p: Page, partials: seq<PartialRequest>, network: Url -> FetchResult): Loaded
    decreases |partials|
  {
    if partials == [] then Loaded(p, None)
    else
      var before := PartialsLoaded(p, partials[..|partials| - 1], network);
      var last := partials[|partials| - 1];
      var step := PartialLoaded(before.page, last.url, last.selector, network(last.url));
      Loaded(step.page, if before.error.Some? then before.error else step.error)
  }

  function Urls(partials: seq<PartialRequest>): (r: seq<Url>)
    ensures |r| == |partials| && forall i :: 0 <= i < |partials| ==> r[i] == partials[i].url
  {
    seq(|partials|, i requires 0 <= i < |partials| => partials[i].url)
  }

  lemma UrlsSnoc(partials: seq<PartialRequest>)
    requires partials != []
    ensures Urls(partials) == Urls(partials[..|partials| - 1]) + [partials[|partials| - 1].url]
  {
  }

  /** Inserting changes the content of the matched element only, or logs one error and changes nothing. */
  lemma InsertedChangesOnlyTarget(p: Page, content: string, selector: Selector)
    ensures var q := Inserted(p, content, selector);
      && q.dom.Keys == p.dom.Keys
      && (selector in p.dom ==> q.dom[selector] == content && q.trace == p.trace)
      && (forall s :: s in p.dom && s != selector ==> q.dom[s] == p.dom[s])
      && (selector !in p.dom ==> q.dom == p.dom && q.trace == p.trace + [Log(Error, SelectorNotFound(selector))])
  {
  }

  /** One `loadPartial` rejects exactly when its fetch failed, and with that fetch's error. */
  lemma PartialLoadedError(p: Page, url: Url, selector: Selector, reply: FetchResult)
    ensures var r := PartialLoaded(p, url, selector, reply);
      && (r.error.None? <==> Fetched(reply).Ok?)
      && (r.error.Some? ==> Fetched(reply) == Err(r.error.value))
  {
  }

  /** One `loadPartial` writes only its own placeholder, only with the fetched text, and only on success. */
  lemma PartialLoadedDom(p: Page, url: Url, selector: Selector, reply: FetchResult)
    ensures var r := PartialLoaded(p, url, selector, reply);
      r.page.dom == if Fetched(reply).Ok? && selector in p.dom then p.dom[selector := Fetched(reply).value] else p.dom
  {
  }

  /** One `loadPartial` fetches its URL once and imports, invokes and reports nothing. */
  lemma PartialLoadedViews(p: Page, url: Url, selector: Selector, reply: FetchResult)
    ensures var r := PartialLoaded(p, url, selector, reply);
      && Extends(p, r.page)
      && Fetches(Added(p, r.page)) == [url]
      && Imports(Added(p, r.page)) == [] && Invocations(Added(p, r.page)) == [] && Reports(Added(p, r.page)) == []
  {
    var r := PartialLoaded(p, url, selector, reply);
    var added := Added(p, r.page);
    ViewsOfOne(Fetch(url));
    if added != [Fetch(url)] {
      assert added == [Fetch(url)] + [Log(Error, SelectorNotFound(selector))];
      ViewsOfOne(Log(Error, SelectorNotFound(selector)));
      ViewsAppend([Fetch(url)], [Log(Error, SelectorNotFound(selector))]);
    }
  }

  /**
   * One `loadPartial` fetches its URL once, imports and invokes nothing and
   * reports nothing; it writes only its own placeholder, and only with the
   * fetched text.
   */
  lemma PartialLoadedAdds(p: Page, url: Url, selector: Selector, reply: FetchResult)
    ensures var r := PartialLoaded(p, url, selector, reply);
      && Extends(p, r.page)
      && Fetches(Added(p, r.page)) == [url]
      && Imports(Added(p, r.page)) == [] && Invocations(Added(p, r.page)) == [] && Reports(Added(p, r.page)) == []
      && (r.error.None? <==> Fetched(reply).Ok?)
      && (r.error.Some? ==> Fetched(reply) == Err(r.error.value) && r.page.dom == p.dom)
      && (r.error.None? ==> r.page.dom == if selector in p.dom then p.dom[selector := Fetched(reply).value] else p.dom)
  {
    PartialLoadedError(p, url, selector, reply);
    PartialLoadedDom(p, url, selector, reply);
    PartialLoadedViews(p, url, selector, reply);
  }

  /** `loadPartials` on a non-empty list is the load of all but the last, then the load of the last. */
  lemma PartialsLastStep(p: Page, partials: seq<PartialRequest>, network: Url -> FetchResult)
    requires partials != []
    ensures var last := partials[|partials| - 1];
      var before := PartialsLoaded(p, partials[..|partials| - 1], network);
      var step := PartialLoaded(before.page, last.url, last.selector, network(last.url));
      PartialsLoaded(p, partials, network) == Loaded(step.page, if before.error.Some? then before.error else step.error)
  {
  }

  /** Each partial is fetched exactly once, in list order, whatever the replies. */
  lemma {:induction false} PartialsFetchEachOnce(p: Page, partials: seq<PartialRequest>, network: Url -> FetchResult)
    ensures var q := PartialsLoaded(p, partials, network).page;
      && Extends(p, q)
      && Fetches(Added(p, q)) == Urls(partials)
      && Imports(Added(p, q)) == [] && Invocations(Added(p, q)) == [] && Reports(Added(p, q)) == []
  {
    if partials != [] {
      var init, last := partials[..|partials| - 1], partials[|partials| - 1];
      PartialsFetchEachOnce(p, init, network);
      var mid := PartialsLoaded(p, init, network).page;
      var q := PartialsLoaded(p, partials, network).page;
      PartialsLastStep(p, partials, network);
      PartialLoadedViews(mid, last.url, last.selector, network(last.url));
      AddedChain(p, mid, q);
      assert Fetches(Added(p, q)) == Urls(partials) by {
        PickAppend(Added(p, mid), Added(mid, q), FetchOf);
        UrlsSnoc(partials);
      }
      assert Imports(Added(p, q)) == [] && Invocations(Added(p, q)) == [] && Reports(Added(p, q)) == [] by {
        ViewsAppend(Added(p, mid), Added(mid, q));
      }
    }
  }

  /** `loadPartials` succeeds exactly when every fetch succeeds, and otherwise rejects with the first error. */
  lemma {:induction false} PartialsSucceedIff(p: Page, partials: seq<PartialRequest>, network: Url -> FetchResult)
    ensures var r := PartialsLoaded(p, partials, network);
      && (r.error.None? <==> forall i :: 0 <= i < |partials| ==> Fetched(network(partials[i].url)).Ok?)
      && (r.error.Some? ==>
            exists i :: && 0 <= i < |partials|
                        && Fetched(network(partials[i].url)) == Err(r.error.value)
                        && forall j :: 0 <= j < i ==> Fetched(network(partials[j].url)).Ok?)
  {
    if partials != [] {
      var init, last := partials[..|partials| - 1], partials[|partials| - 1];
      PartialsSucceedIff(p, init, network);
      var before := PartialsLoaded(p, init, network);
      var step := PartialLoaded(before.page, last.url, last.selector, network(last.url));
      var r := PartialsLoaded(p, partials, network);
      PartialsLastStep(p, partials, network);
      PartialLoadedError(before.page, last.url, last.selector, network(last.url));
      assert forall j :: 0 <= j < |init| ==> partials[j] == init[j];
      if before.error.Some? {
        var i :| && 0 <= i < |init| && Fetched(network(init[i].url)) == Err(before.error.value)
                 && forall j :: 0 <= j < i ==> Fetched(network(init[j].url)).Ok?;
        assert r.error == before.error && partials[i] == init[i];
      } else if step.error.Some? {
        assert r.error == step.error && Fetched(network(partials[|init|].url)) == Err(r.error.value);
      } else {
        assert r.error.None?;
      }
    }
  }

  /**
   * With distinct selectors (so that the concurrent loads cannot race), the
   * document afterwards holds the fetched text in every present placeholder
   * whose fetch succeeded and is otherwise unchanged.
   */
  lemma {:induction false} PartialsFillPlaceholders(p: Page, partials: seq<PartialRequest>, network: Url -> FetchResult)
    requires forall i, j :: 0 <= i < j < |partials| ==> partials[i].selector != partials[j].selector
    ensures var q := PartialsLoaded(p, partials, network).page;
      && q.dom.Keys == p.dom.Keys
      && (forall i :: 0 <= i < |partials| && partials[i].selector in p.dom && Fetched(network(partials[i].url)).Ok?
            ==> q.dom[partials[i].selector] == Fetched(network(partials[i].url)).value)
      && (forall s :: s in p.dom && (forall i :: 0 <= i < |partials| && partials[i].selector == s
                                        ==> Fetched(network(partials[i].url)).Err?)
            ==> q.dom[s] == p.dom[s])
  {
    if partials != [] {
      var init, last := partials[..|partials| - 1], partials[|partials| - 1];
      PartialsFillPlaceholders(p, init, network);
      var mid := PartialsLoaded(p, init, network).page;
      var q := PartialsLoaded(p, partials, network).page;
      PartialsLastStep(p, partials, network);
      PartialLoadedDom(mid, last.url, last.selector, network(last.url));
      forall i | 0 <= i < |partials| && partials[i].selector in p.dom && Fetched(network(partials[i].url)).Ok?
        ensures q.dom[partials[i].selector] == Fetched(network(partials[i].url)).value
      {
        if i < |init| {
          assert partials[i] == init[i];
          assert partials[i].selector != last.selector;
        }
      }
      forall s | s in p.dom && (forall i :: 0 <= i < |partials| && partials[i].selector == s
                                  ==> Fetched(network(partials[i].url)).Err?)
        ensures q.dom[s] == p.dom[s]
      {
        assert forall i :: 0 <= i < |init| ==> init[i] == partials[i];
      }
    }
  }

  // ---------------------------------------------------------------------------
  // loadComponents
  // ---------------------------------------------------------------------------

  /** The single outcome of one component entry. */
  datatype Outcome =
    | Invoked                          // the entry point ran
    | InvokedAndThrew(reason: string)  // it ran and threw; the `.catch` logs it
    | Warned                           // the export is absent or not a function
    | ImportFailed(reason: string)     // the import rejected; the `.catch` logs it

  /** The outcome of the entry `initFunction` of a module whose import settled to `imp`. */
  function ComponentOutcome(imp: ImportResult, initFunction: string): (o: Outcome)
    ensures (o.Invoked? || o.InvokedAndThrew?) <==>
      imp.Imported? && initFunction in imp.exports && imp.exports[initFunction].Callable?
    ensures o.Warned? <==>
      imp.Imported? && (initFunction !in imp.exports || imp.exports[initFunction].NotCallable?)
    ensures o.ImportFailed? <==> imp.ImportRejected?
    ensures o.ImportFailed? ==> o.reason == imp.reason
    ensures o.Invoked? ==> imp.exports[initFunction].throws.None?
    ensures o.InvokedAndThrew? ==> imp.exports[initFunction].throws == Some(o.reason)
  {
    match imp
    case ImportRejected(reason) => ImportFailed(reason)
    case Imported(exports) =>
      if initFunction in exports && exports[initFunction].Callable? then
        match exports[initFunction].throws
        case None => Invoked
        case Some(reason) => InvokedAndThrew(reason)
      else Warned
  }

  /** What one component entry adds to the trace. */
  function ComponentEvents(c: ComponentRequest, o: Outcome): seq<Event> {
    [Import(c.path)] +
    match o
    case Invoked => [Invoke(c.path, c.initFunction)]
    case InvokedAndThrew(reason) => [Invoke(c.path, c.initFunction), Log(Error, ComponentLoadError(c.path, reason))]
    case Warned => [Log(Warning, InitFunctionNotFound(c.initFunction, c.path))]
    case ImportFailed(reason) => [Log(Error, ComponentLoadError(c.path, reason))]
  }

  /** A page together with the outcome of every component entry. */
  datatype Dispatched = Dispatched(page: Page, outcomes: seq<Outcome>)

  /** `loadComponents(components)`: every entry is imported and dispatched; it never rejects. */
  function ComponentsLoaded(p: Page, components: seq<ComponentRequest>, loader: string -> ImportResult): Dispatched
    decreases |components|
  {
    if components == [] then Dispatched(p, [])
    else
      var before := ComponentsLoaded(p, components[..|components| - 1], loader);
      var last := components[|components| - 1];
      var o := ComponentOutcome(loader(last.path), last.initFunction);
      Dispatched(before.page.(trace := before.page.trace + ComponentEvents(last, o)), before.outcomes + [o])
  }

  function Paths(components: seq<ComponentRequest>): (r: seq<string>)
    ensures |r| == |components| && forall i :: 0 <= i < |components| ==> r[i] == components[i].path
  {
    seq(|components|, i requires 0 <= i < |components| => components[i].path)
  }

  lemma PathsSnoc(components: seq<ComponentRequest>)
    requires components != []
    ensures Paths(components) == Paths(components[..|components| - 1]) + [components[|components| - 1].path]
  {
  }

  /** The entry `initFunction` runs: the import succeeded and the export of that name is a function. */
  predicate Runs(imp: ImportResult, initFunction: string) {
    imp.Imported? && initFunction in imp.exports && imp.exports[initFunction].Callable?
  }

  /** The entries whose entry point runs, in order. */
  function InvokedEntries(components: seq<ComponentRequest>, loader: string -> ImportResult): seq<ComponentRequest> {
    if components == [] then []
    else
      var last := components[|components| - 1];
      InvokedEntries(components[..|components| - 1], loader)
        + (if Runs(loader(last.path), last.initFunction) then [last] else [])
  }

  lemma PickOfTwo<T>(e1: Event, e2: Event, f: Event -> Option<T>)
    ensures Pick([e1, e2], f) == PickOne(e1, f) + PickOne(e2, f)
  {
    assert [e1, e2][..1] == [e1];
    PickOfOne(e1, f);
  }

  lemma PickOfThree<T>(e1: Event, e2: Event, e3: Event, f: Event -> Option<T>)
    ensures Pick([e1, e2, e3], f) == PickOne(e1, f) + PickOne(e2, f) + PickOne(e3, f)
  {
    assert [e1, e2, e3][..2] == [e1, e2];
    PickOfTwo(e1, e2, f);
  }

  /** The events of one entry, for any view `f`, in terms of its first event and the rest. */
  lemma PickOfComponentEvents<T>(c: ComponentRequest, o: Outcome, f: Event -> Option<T>)
    ensures Pick(ComponentEvents(c, o), f) == PickOne(Import(c.path), f) +
      match o
      case Invoked => PickOne(Invoke(c.path, c.initFunction), f)
      case InvokedAndThrew(reason) =>
        PickOne(Invoke(c.path, c.initFunction), f) + PickOne(Log(Error, ComponentLoadError(c.path, reason)), f)
      case Warned => PickOne(Log(Warning, InitFunctionNotFound(c.initFunction, c.path)), f)
      case ImportFailed(reason) => PickOne(Log(Error, ComponentLoadError(c.path, reason)), f)
  {
    var im := Import(c.path);
    match o
    case Invoked =>
      assert ComponentEvents(c, o) == [im, Invoke(c.path, c.initFunction)];
      PickOfTwo(im, Invoke(c.path, c.initFunction), f);
    case InvokedAndThrew(reason) =>
      var invoke, log := Invoke(c.path, c.initFunction), Log(Error, ComponentLoadError(c.path, reason));
      assert ComponentEvents(c, o) == [im, invoke, log];
      PickOfThree(im, invoke, log, f);
    case Warned =>
      assert ComponentEvents(c, o) == [im, Log(Warning, InitFunctionNotFound(c.initFunction, c.path))];
      PickOfTwo(im, Log(Warning, InitFunctionNotFound(c.initFunction, c.path)), f);
    case ImportFailed(reason) =>
      assert ComponentEvents(c, o) == [im, Log(Error, ComponentLoadError(c.path, reason))];
      PickOfTwo(im, Log(Error, ComponentLoadError(c.path, reason)), f);
  }

  /** One entry is imported once, fetches and reports nothing, and invokes once exactly when its export is a function. */
  lemma ComponentEventsViews(c: ComponentRequest, o: Outcome)
    ensures Fetches(ComponentEvents(c, o)) == [] && Reports(ComponentEvents(c, o)) == []
    ensures Imports(ComponentEvents(c, o)) == [c.path]
    ensures Invocations(ComponentEvents(c, o)) == if o.Invoked? || o.InvokedAndThrew? then [c] else []
  {
    ComponentEventsFetchNothing(c, o);
    ComponentEventsReportNothing(c, o);
    ComponentEventsImportOnce(c, o);
    ComponentEventsInvocations(c, o);
  }

  lemma ComponentEventsFetchNothing(c: ComponentRequest, o: Outcome)
    ensures Fetches(ComponentEvents(c, o)) == []
  {
    PickOfComponentEvents(c, o, FetchOf);
  }

  lemma ComponentEventsReportNothing(c: ComponentRequest, o: Outcome)
    ensures Reports(ComponentEvents(c, o)) == []
  {
    PickOfComponentEvents(c, o, ReportOf);
  }

  lemma ComponentEventsImportOnce(c: ComponentRequest, o: Outcome)
    ensures Imports(ComponentEvents(c, o)) == [c.path]
  {
    PickOfComponentEvents(c, o, ImportOf);
  }

  lemma ComponentEventsInvocations(c: ComponentRequest, o: Outcome)
    ensures Invocations(ComponentEvents(c, o)) == if o.Invoked? || o.InvokedAndThrew? then [c] else []
  {
    PickOfComponentEvents(c, o, InvocationOf);
  }

  /** Every entry gets exactly one outcome, decided by its own import alone, and the document is untouched. */
  lemma {:induction false} ComponentsOneOutcomeEach(p: Page, components: seq<ComponentRequest>, loader: string -> ImportResult)
    ensures var d := ComponentsLoaded(p, components, loader);
      && |d.outcomes| == |components|
      && (forall i :: 0 <= i < |components| ==>
            d.outcomes[i] == ComponentOutcome(loader(components[i].path), components[i].initFunction))
      && d.page.dom == p.dom
  {
    if components != [] {
      var init := components[..|components| - 1];
      ComponentsOneOutcomeEach(p, init, loader);
      assert forall i :: 0 <= i < |init| ==> init[i] == components[i];
    }
  }

  /** The last entry of `components` adds exactly its own events to the trace. */
  lemma ComponentsLastStep(p: Page, components: seq<ComponentRequest>, loader: string -> ImportResult)
    requires components != []
    ensures var last := components[|components| - 1];
      var before := ComponentsLoaded(p, components[..|components| - 1], loader).page;
      var d := ComponentsLoaded(p, components, loader).page;
      && Extends(before, d)
      && Added(before, d) == ComponentEvents(last, ComponentOutcome(loader(last.path), last.initFunction))
  {
    var last := components[|components| - 1];
    var before := ComponentsLoaded(p, components[..|components| - 1], loader).page;
    var added := ComponentEvents(last, ComponentOutcome(loader(last.path), last.initFunction));
    assert (before.trace + added)[..|before.trace|] == before.trace;
    assert (before.trace + added)[|before.trace|..] == added;
  }

  /**
   * Each entry is imported once, in order, and nothing is fetched or reported
   * to `initializePage`'s handlers, so `loadComponents` never fails the page.
   */
  lemma {:induction false} ComponentsImportEachOnce(p: Page, components: seq<ComponentRequest>, loader: string -> ImportResult)
    ensures var d := ComponentsLoaded(p, components, loader).page;
      && Extends(p, d)
      && Imports(Added(p, d)) == Paths(components)
      && Fetches(Added(p, d)) == [] && Reports(Added(p, d)) == []
  {
    if components != [] {
      var init, last := components[..|components| - 1], components[|components| - 1];
      ComponentsImportEachOnce(p, init, loader);
      var before := ComponentsLoaded(p, init, loader).page;
      var d := ComponentsLoaded(p, components, loader).page;
      var o := ComponentOutcome(loader(last.path), last.initFunction);
      var added := ComponentEvents(last, o);
      ComponentsLastStep(p, components, loader);
      AddedChain(p, before, d);
      assert Imports(Added(p, d)) == Paths(components) by {
        ComponentEventsViews(last, o);
        ViewsAppend(Added(p, before), added);
        PathsSnoc(components);
      }
      assert Fetches(Added(p, d)) == [] && Reports(Added(p, d)) == [] by {
        ComponentEventsViews(last, o);
        ViewsAppend(Added(p, before), added);
      }
    }
  }

  /** An entry point runs once exactly when its module imported and exports it as a function. */
  lemma {:induction false} ComponentsInvokeWhenCallable(p: Page, components: seq<ComponentRequest>, loader: string -> ImportResult)
    ensures var d := ComponentsLoaded(p, components, loader).page;
      Extends(p, d) && Invocations(Added(p, d)) == InvokedEntries(components, loader)
  {
    if components != [] {
      var init, last := components[..|components| - 1], components[|components| - 1];
      ComponentsInvokeWhenCallable(p, init, loader);
      var before := ComponentsLoaded(p, init, loader).page;
      var d := ComponentsLoaded(p, components, loader).page;
      var o := ComponentOutcome(loader(last.path), last.initFunction);
      var added := ComponentEvents(last, o);
      ComponentsLastStep(p, components, loader);
      AddedChain(p, before, d);
      ComponentEventsViews(last, o);
      assert Invocations(added) == if Runs(loader(last.path), last.initFunction) then [last] else [];
      ViewsAppend(Added(p, before), added);
    }
  }

  // ---------------------------------------------------------------------------
  // initializePage and handleError
  // ---------------------------------------------------------------------------

  /** `handleError(error)`. */
  function ErrorHandled(p: Page, e: LoadError): Page {
    p.(trace := p.trace + [Log(Error, PageInitError(e))])
  }

  /** The success line of `initializePage`. */
  function SuccessLogged(p: Page): Page {
    p.(trace := p.trace + [Log(Info, PageInitializedMessage)])
  }

  /**
   * The continuation after the head partial loaded: the body partials, then
   * the components, then the success line or `handleError` with the first error.
   */
  function BodyLoaded(p: Page, config: Config, network: Url -> FetchResult, loader: string -> ImportResult): Page {
    var partials := PartialsLoaded(p, config.partials, network);
    var components := ComponentsLoaded(partials.page, config.components, loader).page;
    if partials.error.Some? then ErrorHandled(components, partials.error.value) else SuccessLogged(components)
  }

  /**
   * `initializePage` on the path `pathname` with configuration `config`: the
   * head partial first, and the rest only when it loaded.
   */
  function Initialized(p: Page, pathname: string, config: Config,
                       network: Url -> FetchResult, loader: string -> ImportResult): Page
  {
    var headUrl := HeadPartialUrl(pathname);
    var head := PartialLoaded(p, headUrl, HeadPlaceholder, network(headUrl));
    if head.error.Some? then ErrorHandled(head.page, head.error.value)
    else BodyLoaded(head.page, config, network, loader)
  }

  /** The last event of the body stage: `handleError` with the first partial error, or the success line. */
  function FinalReport(error: Option<LoadError>): Event {
    if error.Some? then Log(Error, PageInitError(error.value)) else Log(Info, PageInitializedMessage)
  }

  /**
   * The fetches and imports of three stages, the last of which only logs,
   * are those of the first two.
   */
  lemma BodyViews(p: Page, a: Page, b: Page, q: Page, last: Event)
    requires Extends(p, a) && Extends(a, b) && Extends(b, q) && Added(b, q) == [last] && last.Log?
    requires Imports(Added(p, a)) == [] && Fetches(Added(a, b)) == []
    ensures Extends(p, q)
    ensures Fetches(Added(p, q)) == Fetches(Added(p, a)) && Imports(Added(p, q)) == Imports(Added(a, b))
  {
    PickOfOne(last, FetchOf);
    PickOfOne(last, ImportOf);
    PickOfThreeStages(p, a, b, q, FetchOf);
    PickOfThreeStages(p, a, b, q, ImportOf);
  }

  lemma BodyStages(p: Page, config: Config, network: Url -> FetchResult, loader: string -> ImportResult)
    ensures var loaded := PartialsLoaded(p, config.partials, network);
      var components := ComponentsLoaded(loaded.page, config.components, loader).page;
      var q := BodyLoaded(p, config, network, loader);
      && Extends(components, q) && Added(components, q) == [FinalReport(loaded.error)]
  {
  }

  /** After the head, every body partial is fetched once and every component imported once, whatever their results. */
  lemma BodyAttempts(p: Page, config: Config, network: Url -> FetchResult, loader: string -> ImportResult)
    ensures var q := BodyLoaded(p, config, network, loader);
      && Extends(p, q)
      && Fetches(Added(p, q)) == Urls(config.partials)
      && Imports(Added(p, q)) == Paths(config.components)
  {
    var loaded := PartialsLoaded(p, config.partials, network);
    var components := ComponentsLoaded(loaded.page, config.components, loader).page;
    var q := BodyLoaded(p, config, network, loader);
    PartialsFetchEachOnce(p, config.partials, network);
    ComponentsImportEachOnce(loaded.page, config.components, loader);
    BodyStages(p, config, network, loader);
    BodyViews(p, loaded.page, components, q, FinalReport(loaded.error));
  }

  /** After the head, exactly one report ends `initializePage`: the success line exactly when every body partial loaded. */
  lemma BodyReportsOnce(p: Page, config: Config, network: Url -> FetchResult, loader: string -> ImportResult)
    ensures var q := BodyLoaded(p, config, network, loader);
      var allLoaded := forall i :: 0 <= i < |config.partials| ==> Fetched(network(config.partials[i].url)).Ok?;
      && Extends(p, q)
      && |Reports(Added(p, q))| == 1
      && (Reports(Added(p, q)) == [PageInitializedMessage] <==> allLoaded)
  {
    var loaded := PartialsLoaded(p, config.partials, network);
    var components := ComponentsLoaded(loaded.page, config.components, loader).page;
    var q := BodyLoaded(p, config, network, loader);
    PartialsFetchEachOnce(p, config.partials, network);
    PartialsSucceedIff(p, config.partials, network);
    ComponentsImportEachOnce(loaded.page, config.components, loader);
    BodyStages(p, config, network, loader);
    PickOfOne(FinalReport(loaded.error), ReportOf);
    PickOfThreeStages(p, loaded.page, components, q, ReportOf);
  }

  /** The first thing `initializePage` does is fetch the head partial. */
  lemma HeadFetchedFirst(p: Page, pathname: string, config: Config,
                         network: Url -> FetchResult, loader: string -> ImportResult)
    ensures var q := Initialized(p, pathname, config, network, loader);
      Extends(p, q) && |Added(p, q)| > 0 && Added(p, q)[0] == Fetch(HeadPartialUrl(pathname))
  {
    var headUrl := HeadPartialUrl(pathname);
    var head := PartialLoaded(p, headUrl, HeadPlaceholder, network(headUrl));
    var q := Initialized(p, pathname, config, network, loader);
    PartialLoadedViews(p, headUrl, HeadPlaceholder, network(headUrl));
    assert Added(p, head.page)[0] == Fetch(headUrl);
    if head.error.None? {
      BodyAttempts(head.page, config, network, loader);
    }
    AddedChain(p, head.page, q);
  }

  /** When the head partial fails, nothing else is attempted and `handleError` runs once. */
  lemma HeadFailureStopsEverything(p: Page, pathname: string, config: Config,
                                   network: Url -> FetchResult, loader: string -> ImportResult)
    requires Fetched(network(HeadPartialUrl(pathname))).Err?
    ensures Initialized(p, pathname, config, network, loader)
      == Page(p.dom, p.trace + [Fetch(HeadPartialUrl(pathname)),
                                Log(Error, PageInitError(Fetched(network(HeadPartialUrl(pathname))).error))])
  {
  }

  /**
   * When the head partial loads, it is in `#head-placeholder` before anything
   * else happens, and then every body partial is fetched once and every
   * component imported once, whatever their results.
   */
  lemma BodyAttemptedAfterHead(p: Page, pathname: string, config: Config,
                               network: Url -> FetchResult, loader: string -> ImportResult)
    requires Fetched(network(HeadPartialUrl(pathname))).Ok?
    ensures var headUrl := HeadPartialUrl(pathname);
      var head := PartialLoaded(p, headUrl, HeadPlaceholder, network(headUrl)).page;
      var q := Initialized(p, pathname, config, network, loader);
      && (HeadPlaceholder in p.dom ==> head.dom[HeadPlaceholder] == Fetched(network(headUrl)).value)
      && Extends(p, head) && Extends(head, q) && Fetches(Added(p, head)) == [headUrl]
      && Fetches(Added(head, q)) == Urls(config.partials)
      && Imports(Added(head, q)) == Paths(config.components)
  {
    var headUrl := HeadPartialUrl(pathname);
    var head := PartialLoaded(p, headUrl, HeadPlaceholder, network(headUrl)).page;
    PartialLoadedError(p, headUrl, HeadPlaceholder, network(headUrl));
    PartialLoadedDom(p, headUrl, HeadPlaceholder, network(headUrl));
    PartialLoadedViews(p, headUrl, HeadPlaceholder, network(headUrl));
    BodyAttempts(head, config, network, loader);
  }

  /** When the head partial fails, the one report is `handleError` with its error. */
  lemma ReportsWhenHeadFails(p: Page, pathname: string, config: Config,
                             network: Url -> FetchResult, loader: string -> ImportResult)
    requires Fetched(network(HeadPartialUrl(pathname))).Err?
    ensures var q := Initialized(p, pathname, config, network, loader);
      Extends(p, q) && Reports(Added(p, q)) == [PageInitError(Fetched(network(HeadPartialUrl(pathname))).error)]
  {
    var headUrl := HeadPartialUrl(pathname);
    var head := PartialLoaded(p, headUrl, HeadPlaceholder, network(headUrl));
    var q := Initialized(p, pathname, config, network, loader);
    PartialLoadedError(p, headUrl, HeadPlaceholder, network(headUrl));
    PartialLoadedViews(p, headUrl, HeadPlaceholder, network(headUrl));
    var report := Log(Error, PageInitError(head.error.value));
    assert Extends(head.page, q) && Added(head.page, q) == [report];
    PickOfOne(report, ReportOf);
    ReportsAfterSilent(p, head.page, q);
  }

  /** When the head partial loads, the one report is the success line exactly when every body partial loaded. */
  lemma ReportsWhenHeadLoads(p: Page, pathname: string, config: Config,
                             network: Url -> FetchResult, loader: string -> ImportResult)
    requires Fetched(network(HeadPartialUrl(pathname))).Ok?
    ensures var q := Initialized(p, pathname, config, network, loader);
      && Extends(p, q)
      && |Reports(Added(p, q))| == 1
      && (Reports(Added(p, q)) == [PageInitializedMessage] <==>
            forall i :: 0 <= i < |config.partials| ==> Fetched(network(config.partials[i].url)).Ok?)
  {
    var headUrl := HeadPartialUrl(pathname);
    var head := PartialLoaded(p, headUrl, HeadPlaceholder, network(headUrl));
    var q := Initialized(p, pathname, config, network, loader);
    PartialLoadedError(p, headUrl, HeadPlaceholder, network(headUrl));
    PartialLoadedViews(p, headUrl, HeadPlaceholder, network(headUrl));
    BodyReportsOnce(head.page, config, network, loader);
    ReportsAfterSilent(p, head.page, q);
  }

  /**
   * `initializePage` reports exactly once: the success line exactly when the
   * head and every body partial loaded, and otherwise one `handleError` call.
   */
  lemma ReportsExactlyOnce(p: Page, pathname: string, config: Config,
                           network: Url -> FetchResult, loader: string -> ImportResult)
    ensures var q := Initialized(p, pathname, config, network, loader);
      var allLoaded := Fetched(network(HeadPartialUrl(pathname))).Ok?
        && forall i :: 0 <= i < |config.partials| ==> Fetched(network(config.partials[i].url)).Ok?;
      && Extends(p, q)
      && |Reports(Added(p, q))| == 1
      && (Reports(Added(p, q)) == [PageInitializedMessage] <==> allLoaded)
  {
    if Fetched(network(HeadPartialUrl(pathname))).Ok? {
      ReportsWhenHeadLoads(p, pathname, config, network, loader);
    } else {
      ReportsWhenHeadFails(p, pathname, config, network, loader);
    }
  }

  // ---------------------------------------------------------------------------
  // The loader as it runs against the document
  // ---------------------------------------------------------------------------

  /** The document's placeholders and the developer-visible trace, updated in place. */
  class Browser {
    var dom: map<Selector, string>
    var trace: seq<Event>

    function State(): Page
      reads this
    {
      Page(dom, trace)
    }

    constructor (dom: map<Selector, string>)
      ensures State() == Page(dom, [])
    {
      this.dom := dom;
      trace := [];
    }

    /** `insertPartial(content, selector)`. */
    method InsertPartial(content: string, selector: Selector)
      modifies this
      ensures State() == Inserted(old(State()), content, selector)
      ensures selector in old(dom) ==> dom == old(dom)[selector := content] && trace == old(trace)
      ensures selector !in old(dom) ==> dom == old(dom) && trace == old(trace) + [Log(Error, SelectorNotFound(selector))]
    {
      if selector in dom {
        dom := dom[selector := content];
      } else {
        trace := trace + [Log(Error, SelectorNotFound(selector))];
      }
    }

    /** `loadPartial(url, selector)`; `error` is what its promise rejects with. */
    method LoadPartial(url: Url, selector: Selector, network: Url -> FetchResult) returns (error: Option<LoadError>)
      modifies this
      ensures Loaded(State(), error) == PartialLoaded(old(State()), url, selector, network(url))
    {
      trace := trace + [Fetch(url)];
      var reply := network(url);
      var data: Result<string, LoadError>;
      match reply {
        case Rejected(reason) => data := Err(NetworkError(reason));
        case Responded(response) => data := CheckResponse(response);
      }
      match data {
        case Ok(text) =>
          InsertPartial(text, selector);
          error := None;
        case Err(e) =>
          error := Some(e);
      }
    }

    /** `loadPartials(partials)`, the `Promise.all` run in list order. */
    method LoadPartials(partials: seq<PartialRequest>, network: Url -> FetchResult) returns (error: Option<LoadError>)
      modifies this
      ensures Loaded(State(), error) == PartialsLoaded(old(State()), partials, network)
    {
      error := None;
      var i := 0;
      while i < |partials|
        invariant 0 <= i <= |partials|
        invariant Loaded(State(), error) == PartialsLoaded(old(State()), partials[..i], network)
      {
        assert partials[..i + 1][..i] == partials[..i];
        var e := LoadPartial(partials[i].url, partials[i].selector, network);
        if error.None? {
          error := e;
        }
        i := i + 1;
      }
      assert partials[..|partials|] == partials;
    }

    /** The promise chain of one entry of `loadComponents`: import, then call, warn or log. */
    method LoadComponent(c: ComponentRequest, loader: string -> ImportResult) returns (o: Outcome)
      modifies this
      ensures o == ComponentOutcome(loader(c.path), c.initFunction)
      ensures dom == old(dom) && trace == old(trace) + ComponentEvents(c, o)
    {
      trace := trace + [Import(c.path)];
      match loader(c.path) {
        case ImportRejected(reason) =>
          o := ImportFailed(reason);
          trace := trace + [Log(Error, ComponentLoadError(c.path, reason))];
        case Imported(exports) =>
          if c.initFunction in exports && exports[c.initFunction].Callable? {
            trace := trace + [Invoke(c.path, c.initFunction)];
            match exports[c.initFunction].throws {
              case None =>
                o := Invoked;
              case Some(reason) =>
                o := InvokedAndThrew(reason);
                trace := trace + [Log(Error, ComponentLoadError(c.path, reason))];
            }
          } else {
            o := Warned;
            trace := trace + [Log(Warning, InitFunctionNotFound(c.initFunction, c.path))];
          }
      }
    }

    /** `loadComponents(components)`, the `Promise.all` run in list order. */
    method LoadComponents(components: seq<ComponentRequest>, loader: string -> ImportResult)
      returns (outcomes: seq<Outcome>)
      modifies this
      ensures Dispatched(State(), outcomes) == ComponentsLoaded(old(State()), components, loader)
    {
      outcomes := [];
      var i := 0;
      while i < |components|
        invariant 0 <= i <= |components|
        invariant Dispatched(State(), outcomes) == ComponentsLoaded(old(State()), components[..i], loader)
      {
        assert components[..i + 1][..i] == components[..i];
        var o := LoadComponent(components[i], loader);
        outcomes := outcomes + [o];
        i := i + 1;
      }
      assert components[..|components|] == components;
    }

    /** `handleError(error)`. */
    method HandleError(e: LoadError)
      modifies this
      ensures State() == ErrorHandled(old(State()), e)
    {
      trace := trace + [Log(Error, PageInitError(e))];
    }

    /** `initializePage` for the location path `pathname`, with the table `pageSetupConfig`. */
    method InitializePage(pathname: string, network: Url -> FetchResult, loader: string -> ImportResult)
      modifies this
      ensures State() == Initialized(old(State()), pathname, PageSetupConfig, network, loader)
    {
      InitializeWith(pathname, PageSetupConfig, network, loader);
    }

    /** The body of `initializePage`, for any configuration table. */
    method InitializeWith(pathname: string, config: Config, network: Url -> FetchResult, loader: string -> ImportResult)
      modifies this
      ensures State() == Initialized(old(State()), pathname, config, network, loader)
    {
      ghost var start := State();
      var headPartialUrl := HeadPartialUrl(pathname);
      var headError := LoadPartial(headPartialUrl, HeadPlaceholder, network);
      if headError.Some? {
        HandleError(headError.value);
        return;
      }
      ghost var afterHead := State();
      assert afterHead == PartialLoaded(start, headPartialUrl, HeadPlaceholder, network(headPartialUrl)).page;
      var partialsError := LoadPartials(config.partials, network);
      var _ := LoadComponents(config.components, loader);
      if partialsError.Some? {
        HandleError(partialsError.value);
      } else {
        trace := trace + [Log(Info, PageInitializedMessage)];
      }
      assert State() == BodyLoaded(afterHead, config, network, loader);
    }
  }
}
