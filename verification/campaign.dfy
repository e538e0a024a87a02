/** The per-keyword driver loop of `main` (scraper.py, lines 73-114),
    written as the sequence of events it produces. The browser's answers
    enter as the href values each keyword's search page shows, the
    downloader's as the outcome of each attempt; waits are recorded with
    their bounds instead of being slept. */
module Campaign {
  import opened Wrappers
  import Slug
  import Links
  import Retry

  datatype Event =
    | OpenContext(id: nat, saveDir: string)
    | Navigate(keyword: string)
    | Scroll
    | Pause(lo: int, hi: int)
    | Video(url: string, saved: bool, attempts: seq<Retry.VideoEvent>)
    | CloseContext(id: nat)

  /** The `random_delay` bounds of lines 91, 96, 111 and 114. */
  const LoadPause := Pause(4, 6)
  const ScrollPause := Pause(2, 3)
  const ItemPause := Pause(4, 7)
  const KeywordPause := Pause(8, 12)

  /** Scroll steps after the search page loads (line 94). */
  const ScrollSteps := 4

  /** `KEYWORDS`, `MAX_VIDEO_PER_KEYWORD` and `MAX_RETRY`. */
  datatype Config = Config(keywords: seq<string>, maxVideos: int, maxRetry: int)

  /** The href values the search page of the i-th keyword shows, in
      document order, after scrolling. */
  type Pages = nat -> seq<Option<string>>

  /** The outcome of each attempt to download a URL found for the i-th
      keyword. */
  type Downloader = (nat, string) -> (nat -> Retry.Outcome)

  /** Collects, in order, the contributions `f` makes for each event. */
  function Project<T>(t: seq<Event>, f: Event -> seq<T>): seq<T> {
    if t == [] then [] else Project(t[..|t| - 1], f) + f(t[|t| - 1])
  }

  lemma {:induction false} ProjectAppend<T>(a: seq<Event>, b: seq<Event>, f: Event -> seq<T>)
    ensures Project(a + b, f) == Project(a, f) + Project(b, f)
    decreases |b|
  {
    if b == [] {
      assert a + b == a;
    } else {
      var b' := b[..|b| - 1];
      var e := b[|b| - 1];
      assert a + b == (a + b') + [e];
      assert (a + b)[..|a + b| - 1] == a + b';
      ProjectAppend(a, b', f);
    }
  }

  /** Every event `trigger` accepts is immediately followed by `next`. */
  ghost predicate FollowedBy(t: seq<Event>, trigger: Event -> bool, next: Event) {
    forall k :: 0 <= k < |t| && trigger(t[k]) ==> k + 1 < |t| && t[k + 1] == next
  }

  lemma FollowedByAppend(a: seq<Event>, b: seq<Event>, trigger: Event -> bool, next: Event)
    requires FollowedBy(a, trigger, next)
    requires FollowedBy(b, trigger, next)
    ensures FollowedBy(a + b, trigger, next)
  {
    var t := a + b;
    forall k | 0 <= k < |t| && trigger(t[k])
      ensures k + 1 < |t| && t[k + 1] == next
    {
      if k < |a| {
        assert a[k] == t[k];
      } else {
        assert b[k - |a|] == t[k];
      }
    }
  }

  function VideoUrlOf(e: Event): seq<string> {
    if e.Video? then [e.url] else []
  }

  /** What an event says about browsing contexts. */
  datatype Lifecycle = Opened(id: nat) | Closed(id: nat)

  function LifecycleOf(e: Event): seq<Lifecycle> {
    match e
    case OpenContext(id, _) => [Opened(id)]
    case CloseContext(id) => [Closed(id)]
    case _ => []
  }

  function KeywordPauseOf(e: Event): seq<Event> {
    if e == KeywordPause then [e] else []
  }

  predicate IsVideo(e: Event) {
    e.Video?
  }

  predicate IsClose(e: Event) {
    e.CloseContext?
  }

  /** Lines 94-96: scroll, then wait, `n` times. */
  function Scrolls(n: nat): seq<Event> {
    if n == 0 then [] else Scrolls(n - 1) + [Scroll, ScrollPause]
  }

  /** Lines 90-96: open the search page, wait for it, scroll. */
  function Discovery(keyword: string): seq<Event> {
    [Navigate(keyword), LoadPause] + Scrolls(ScrollSteps)
  }

  /** The event of processing one URL (line 110). */
  function ProcessedVideo(download: Downloader, i: nat, url: string, maxRetry: int): Event {
    var t := Retry.VideoTrace(download(i, url), maxRetry);
    Video(url, Retry.VideoSaved(t), t)
  }

  /** Lines 109-111: each URL processed, then a pause. */
  function Items(download: Downloader, i: nat, urls: seq<string>, maxRetry: int): seq<Event> {
    if urls == [] then []
    else
      Items(download, i, urls[..|urls| - 1], maxRetry)
        + [ProcessedVideo(download, i, urls[|urls| - 1], maxRetry), ItemPause]
  }

  /** Everything done for the i-th keyword, lines 74-114. */
  function KeywordBlock(cfg: Config, pages: Pages, download: Downloader, i: nat): seq<Event>
    requires i < |cfg.keywords|
  {
    var keyword := cfg.keywords[i];
    var urls := Links.CollectLinks(pages(i), cfg.maxVideos);
    [OpenContext(i, Slug.KeywordSlug(keyword))] + Discovery(keyword)
      + Items(download, i, urls, cfg.maxRetry) + [CloseContext(i), KeywordPause]
  }

  /** The events of the first `n` keywords. */
  function RunPrefix(cfg: Config, pages: Pages, download: Downloader, n: nat): seq<Event>
    requires n <= |cfg.keywords|
  {
    if n == 0 then [] else RunPrefix(cfg, pages, download, n - 1) + KeywordBlock(cfg, pages, download, n - 1)
  }

  function RunTrace(cfg: Config, pages: Pages, download: Downloader): seq<Event> {
    RunPrefix(cfg, pages, download, |cfg.keywords|)
  }

  /** Contexts as the run should use them: one per keyword, each closed
      before the next is opened. */
  function ContextSchedule(n: nat): seq<Lifecycle> {
    if n == 0 then [] else ContextSchedule(n - 1) + [Opened(n - 1), Closed(n - 1)]
  }

  /** The URLs of all keywords, in the order they are collected. */
  function AllUrls(cfg: Config, pages: Pages, n: nat): seq<string>
    requires n <= |cfg.keywords|
  {
    if n == 0 then [] else AllUrls(cfg, pages, n - 1) + Links.CollectLinks(pages(n - 1), cfg.maxVideos)
  }

  /** What the properties of a trace piece say about it: the URLs it
      processes, the contexts it opens and closes, its long pauses, and that
      videos and context closes are each followed by their pause. */
  ghost predicate Summary(t: seq<Event>, urls: seq<string>, life: seq<Lifecycle>, longPauses: seq<Event>) {
    && Project(t, VideoUrlOf) == urls
    && Project(t, LifecycleOf) == life
    && Project(t, KeywordPauseOf) == longPauses
    && FollowedBy(t, IsVideo, ItemPause)
    && FollowedBy(t, IsClose, KeywordPause)
  }

  lemma SummaryAppend(a: seq<Event>, b: seq<Event>,
                      ua: seq<string>, la: seq<Lifecycle>, pa: seq<Event>,
                      ub: seq<string>, lb: seq<Lifecycle>, pb: seq<Event>)
    requires Summary(a, ua, la, pa)
    requires Summary(b, ub, lb, pb)
    ensures Summary(a + b, ua + ub, la + lb, pa + pb)
  {
    ProjectAppend(a, b, VideoUrlOf);
    ProjectAppend(a, b, LifecycleOf);
    ProjectAppend(a, b, KeywordPauseOf);
    FollowedByAppend(a, b, IsVideo, ItemPause);
    FollowedByAppend(a, b, IsClose, KeywordPause);
  }

  /** A single event that is neither a video, a context event nor the long
      pause contributes nothing. */
  lemma QuietEvent(e: Event)
    requires !e.Video? && !e.OpenContext? && !e.CloseContext? && e != KeywordPause
    ensures Summary([e], [], [], [])
  {
  }

  lemma {:induction false} ScrollsQuiet(n: nat)
    ensures Summary(Scrolls(n), [], [], [])
  {
    if n > 0 {
      ScrollsQuiet(n - 1);
      QuietEvent(Scroll);
      QuietEvent(ScrollPause);
      SummaryAppend([Scroll], [ScrollPause], [], [], [], [], [], []);
      SummaryAppend(Scrolls(n - 1), [Scroll, ScrollPause], [], [], [], [], [], []);
    }
  }

  lemma DiscoveryQuiet(keyword: string)
    ensures Summary(Discovery(keyword), [], [], [])
  {
    ScrollsQuiet(ScrollSteps);
    QuietEvent(Navigate(keyword));
    QuietEvent(LoadPause);
    SummaryAppend([Navigate(keyword)], [LoadPause], [], [], [], [], [], []);
    SummaryAppend([Navigate(keyword), LoadPause], Scrolls(ScrollSteps), [], [], [], [], [], []);
  }

  /** Processing one URL and the pause after it. */
  lemma VideoStep(e: Event)
    requires e.Video?
    ensures Summary([e, ItemPause], [e.url], [], [])
  {
    var t := [e, ItemPause];
    assert t[..1] == [e] && [e][..0] == [];
    QuietEvent(ItemPause);
  }

  /** The item loop processes every URL once, in list order, and pauses
      after each one whatever its outcome. */
  lemma {:induction false} ItemsShape(download: Downloader, i: nat, urls: seq<string>, maxRetry: int)
    ensures Summary(Items(download, i, urls, maxRetry), urls, [], [])
    decreases |urls|
  {
    if urls != [] {
      var n := |urls| - 1;
      var e := ProcessedVideo(download, i, urls[n], maxRetry);
      ItemsShape(download, i, urls[..n], maxRetry);
      VideoStep(e);
      SummaryAppend(Items(download, i, urls[..n], maxRetry), [e, ItemPause], urls[..n], [], [], [urls[n]], [], []);
      assert urls == urls[..n] + [urls[n]];
    }
  }

  /** Closing the context and the long pause after it. */
  lemma CloseStep(i: nat)
    ensures Summary([CloseContext(i), KeywordPause], [], [Closed(i)], [KeywordPause])
  {
    assert [CloseContext(i), KeywordPause] == [CloseContext(i)] + [KeywordPause];
    assert [CloseContext(i)][..0] == [] && [KeywordPause][..0] == [];
    ProjectAppend([CloseContext(i)], [KeywordPause], VideoUrlOf);
    ProjectAppend([CloseContext(i)], [KeywordPause], LifecycleOf);
    ProjectAppend([CloseContext(i)], [KeywordPause], KeywordPauseOf);
  }

  lemma OpenStep(i: nat, dir: string)
    ensures Summary([OpenContext(i, dir)], [], [Opened(i)], [])
  {
  }

  /** The browsing context open after event `e`, if `cur` was open before
      it. */
  function Enter(cur: Option<nat>, e: Event): Option<nat> {
    match e
    case OpenContext(id, _) => Some(id)
    case CloseContext(_) => None
    case _ => cur
  }

  /** The context open after the events `t`, starting with `cur` open. */
  function OpenAfter(cur: Option<nat>, t: seq<Event>): Option<nat> {
    if t == [] then cur else Enter(OpenAfter(cur, t[..|t| - 1]), t[|t| - 1])
  }

  /** Every processed URL, paired with the context open while it was
      processed. */
  function VideosByContext(cur: Option<nat>, t: seq<Event>): seq<(Option<nat>, string)> {
    if t == [] then []
    else
      var prev := t[..|t| - 1];
      var e := t[|t| - 1];
      VideosByContext(cur, prev) + (if e.Video? then [(OpenAfter(cur, prev), e.url)] else [])
  }

  /** The URLs `urls`, each paired with context `cur`. */
  function Tag(cur: Option<nat>, urls: seq<string>): seq<(Option<nat>, string)> {
    if urls == [] then [] else Tag(cur, urls[..|urls| - 1]) + [(cur, urls[|urls| - 1])]
  }

  /** The collected URLs of the first `n` keywords, each paired with the
      context of its own keyword. */
  function VideosInContexts(cfg: Config, pages: Pages, n: nat): seq<(Option<nat>, string)>
    requires n <= |cfg.keywords|
  {
    if n == 0 then []
    else VideosInContexts(cfg, pages, n - 1) + Tag(Some(n - 1), Links.CollectLinks(pages(n - 1), cfg.maxVideos))
  }

  /** Starting with `cur` open, the events `t` leave `after` open and process
      the URLs of `videos` in the contexts paired with them. */
  ghost predicate Scoped(t: seq<Event>, cur: Option<nat>, after: Option<nat>, videos: seq<(Option<nat>, string)>) {
    OpenAfter(cur, t) == after && VideosByContext(cur, t) == videos
  }

  lemma {:induction false} OpenAfterAppend(cur: Option<nat>, a: seq<Event>, b: seq<Event>)
    ensures OpenAfter(cur, a + b) == OpenAfter(OpenAfter(cur, a), b)
    ensures VideosByContext(cur, a + b) == VideosByContext(cur, a) + VideosByContext(OpenAfter(cur, a), b)
    decreases |b|
  {
    if b == [] {
      assert a + b == a;
    } else {
      var b' := b[..|b| - 1];
      var e := b[|b| - 1];
      assert a + b == (a + b') + [e];
      assert (a + b)[..|a + b| - 1] == a + b';
      OpenAfterAppend(cur, a, b');
    }
  }

  lemma ScopedAppend(a: seq<Event>, b: seq<Event>, cur: Option<nat>, mid: Option<nat>, after: Option<nat>,
                     va: seq<(Option<nat>, string)>, vb: seq<(Option<nat>, string)>)
    requires Scoped(a, cur, mid, va)
    requires Scoped(b, mid, after, vb)
    ensures Scoped(a + b, cur, after, va + vb)
  {
    OpenAfterAppend(cur, a, b);
  }

  lemma ScopedOne(cur: Option<nat>, e: Event)
    ensures Scoped([e], cur, Enter(cur, e), if e.Video? then [(cur, e.url)] else [])
  {
    assert [e][..0] == [];
  }

  lemma {:induction false} ScrollsScoped(n: nat, cur: Option<nat>)
    ensures Scoped(Scrolls(n), cur, cur, [])
  {
    if n > 0 {
      ScrollsScoped(n - 1, cur);
      ScopedOne(cur, Scroll);
      ScopedOne(cur, ScrollPause);
      ScopedAppend([Scroll], [ScrollPause], cur, cur, cur, [], []);
      ScopedAppend(Scrolls(n - 1), [Scroll, ScrollPause], cur, cur, cur, [], []);
    }
  }

  /** Discovery neither opens nor closes a context and processes nothing. */
  lemma DiscoveryScoped(keyword: string, cur: Option<nat>)
    ensures Scoped(Discovery(keyword), cur, cur, [])
    ensures forall k :: 0 <= k < |Discovery(keyword)| ==> !Discovery(keyword)[k].Video?
  {
    ScrollsScoped(ScrollSteps, cur);
    ScopedOne(cur, Navigate(keyword));
    ScopedOne(cur, LoadPause);
    ScopedAppend([Navigate(keyword)], [LoadPause], cur, cur, cur, [], []);
    ScopedAppend([Navigate(keyword), LoadPause], Scrolls(ScrollSteps), cur, cur, cur, [], []);
    ScrollsHaveNoVideo(ScrollSteps);
  }

  lemma {:induction false} ScrollsHaveNoVideo(n: nat)
    ensures forall k :: 0 <= k < |Scrolls(n)| ==> !Scrolls(n)[k].Video?
  {
    if n > 0 {
      ScrollsHaveNoVideo(n - 1);
    }
  }

  /** The item loop keeps the open context and processes its URLs in it. */
  lemma {:induction false} ItemsScoped(download: Downloader, i: nat, urls: seq<string>, maxRetry: int, cur: Option<nat>)
    ensures Scoped(Items(download, i, urls, maxRetry), cur, cur, Tag(cur, urls))
    decreases |urls|
  {
    if urls != [] {
      var n := |urls| - 1;
      var e := ProcessedVideo(download, i, urls[n], maxRetry);
      ItemsScoped(download, i, urls[..n], maxRetry, cur);
      ScopedOne(cur, e);
      ScopedOne(cur, ItemPause);
      ScopedAppend([e], [ItemPause], cur, cur, cur, [(cur, urls[n])], []);
      assert [e] + [ItemPause] == [e, ItemPause];
      ScopedAppend(Items(download, i, urls[..n], maxRetry), [e, ItemPause], cur, cur, cur,
        Tag(cur, urls[..n]), [(cur, urls[n])]);
    }
  }

  /** One keyword's block, from any starting context: it opens context `i`,
      processes the collected URLs in it, and leaves no context open. */
  lemma KeywordBlockScoped(cfg: Config, pages: Pages, download: Downloader, i: nat, cur: Option<nat>)
    requires i < |cfg.keywords|
    ensures Scoped(KeywordBlock(cfg, pages, download, i), cur, None,
      Tag(Some(i), Links.CollectLinks(pages(i), cfg.maxVideos)))
  {
    var keyword := cfg.keywords[i];
    var urls := Links.CollectLinks(pages(i), cfg.maxVideos);
    var a := [OpenContext(i, Slug.KeywordSlug(keyword))];
    var b := Discovery(keyword);
    var c := Items(download, i, urls, cfg.maxRetry);
    var d := [CloseContext(i), KeywordPause];
    assert KeywordBlock(cfg, pages, download, i) == ((a + b) + c) + d;
    ScopedOne(cur, a[0]);
    DiscoveryScoped(keyword, Some(i));
    ItemsScoped(download, i, urls, cfg.maxRetry, Some(i));
    ScopedOne(Some(i), CloseContext(i));
    ScopedOne(None, KeywordPause);
    ScopedAppend([CloseContext(i)], [KeywordPause], Some(i), None, None, [], []);
    assert [CloseContext(i)] + [KeywordPause] == d;
    ScopedAppend(a, b, cur, Some(i), Some(i), [], []);
    ScopedAppend(a + b, c, cur, Some(i), Some(i), [], Tag(Some(i), urls));
    ScopedAppend((a + b) + c, d, cur, Some(i), None, [] + Tag(Some(i), urls), []);
    assert [] + Tag(Some(i), urls) + [] == Tag(Some(i), urls);
  }

  /** Where the events of one keyword's block sit: the context opens first,
      discovery follows at once, the context close and the long pause come
      last, and every processed video lies strictly between discovery and
      the close. */
  lemma KeywordBlockLayout(cfg: Config, pages: Pages, download: Downloader, i: nat)
    requires i < |cfg.keywords|
    ensures var b := KeywordBlock(cfg, pages, download, i);
      var keyword := cfg.keywords[i];
      var d := |Discovery(keyword)|;
      && |b| >= d + 3
      && b[0] == OpenContext(i, Slug.KeywordSlug(keyword))
      && b[1..1 + d] == Discovery(keyword)
      && b[|b| - 2] == CloseContext(i)
      && b[|b| - 1] == KeywordPause
      && forall k :: 0 <= k < |b| && b[k].Video? ==> 1 + d <= k < |b| - 2
  {
    var keyword := cfg.keywords[i];
    var urls := Links.CollectLinks(pages(i), cfg.maxVideos);
    var disc := Discovery(keyword);
    DiscoveryScoped(keyword, None);
    BracketLayout(OpenContext(i, Slug.KeywordSlug(keyword)), disc,
      Items(download, i, urls, cfg.maxRetry), CloseContext(i), KeywordPause);
  }

  /** Where the events of `[first] + quiet + middle + [last1, last2]` sit:
      a video can only come from `middle`. */
  lemma BracketLayout(first: Event, quiet: seq<Event>, middle: seq<Event>, last1: Event, last2: Event)
    requires !first.Video? && !last1.Video? && !last2.Video?
    requires forall k :: 0 <= k < |quiet| ==> !quiet[k].Video?
    ensures var b := [first] + quiet + middle + [last1, last2];
      && |b| >= |quiet| + 3
      && b[0] == first
      && b[1..1 + |quiet|] == quiet
      && b[|b| - 2] == last1
      && b[|b| - 1] == last2
      && forall k :: 0 <= k < |b| && b[k].Video? ==> 1 + |quiet| <= k < |b| - 2
  {
    var b := [first] + quiet + middle + [last1, last2];
    forall k | 0 <= k < 1 + |quiet|
      ensures !b[k].Video?
    {
      if k > 0 {
        assert b[k] == quiet[k - 1];
      }
    }
    assert b[1..1 + |quiet|] == quiet;
  }

  /** One keyword: its own context, opened first and closed last, with
      discovery right after the open; its collected URLs processed once
      each, in order, after discovery and before the close, while its
      context is open; a short pause after every URL; the long pause after
      the context closes. */
  lemma KeywordBlockShape(cfg: Config, pages: Pages, download: Downloader, i: nat)
    requires i < |cfg.keywords|
    ensures Summary(KeywordBlock(cfg, pages, download, i),
      Links.CollectLinks(pages(i), cfg.maxVideos), [Opened(i), Closed(i)], [KeywordPause])
    ensures Scoped(KeywordBlock(cfg, pages, download, i), None, None,
      Tag(Some(i), Links.CollectLinks(pages(i), cfg.maxVideos)))
    ensures var b := KeywordBlock(cfg, pages, download, i);
      var keyword := cfg.keywords[i];
      var d := |Discovery(keyword)|;
      && |b| >= d + 3
      && b[0] == OpenContext(i, Slug.KeywordSlug(keyword))
      && b[1..1 + d] == Discovery(keyword)
      && b[|b| - 2] == CloseContext(i)
      && b[|b| - 1] == KeywordPause
      && forall k :: 0 <= k < |b| && b[k].Video? ==> 1 + d <= k < |b| - 2
  {
    KeywordBlockSummary(cfg, pages, download, i);
    KeywordBlockScoped(cfg, pages, download, i, None);
    KeywordBlockLayout(cfg, pages, download, i);
  }

  lemma KeywordBlockSummary(cfg: Config, pages: Pages, download: Downloader, i: nat)
    requires i < |cfg.keywords|
    ensures Summary(KeywordBlock(cfg, pages, download, i),
      Links.CollectLinks(pages(i), cfg.maxVideos), [Opened(i), Closed(i)], [KeywordPause])
  {
    var keyword := cfg.keywords[i];
    var urls := Links.CollectLinks(pages(i), cfg.maxVideos);
    var a := [OpenContext(i, Slug.KeywordSlug(keyword))];
    var b := Discovery(keyword);
    var c := Items(download, i, urls, cfg.maxRetry);
    var d := [CloseContext(i), KeywordPause];
    assert KeywordBlock(cfg, pages, download, i) == ((a + b) + c) + d;
    OpenStep(i, Slug.KeywordSlug(keyword));
    DiscoveryQuiet(keyword);
    ItemsShape(download, i, urls, cfg.maxRetry);
    CloseStep(i);
    SummaryAppend(a, b, [], [Opened(i)], [], [], [], []);
    SummaryAppend(a + b, c, [], [Opened(i)], [], urls, [], []);
    SummaryAppend((a + b) + c, d, urls, [Opened(i)], [], [], [Closed(i)], [KeywordPause]);
    assert [] + urls + [] == urls;
    assert [Opened(i)] + [] + [] + [Closed(i)] == [Opened(i), Closed(i)];
  }

  /** `n` copies of the long pause. */
  function LongPauses(n: nat): seq<Event> {
    seq(n, _ => KeywordPause)
  }

  lemma LongPausesStep(n: nat)
    requires n > 0
    ensures LongPauses(n - 1) + [KeywordPause] == LongPauses(n)
  {
    var a := LongPauses(n - 1) + [KeywordPause];
    forall k | 0 <= k < n
      ensures a[k] == LongPauses(n)[k]
    {
      if k < n - 1 {
        assert a[k] == LongPauses(n - 1)[k];
      }
    }
  }

  /** The whole run: keywords handled in list order, each in a context of
      its own that is closed before the next one opens; every collected URL
      processed once, in order; a short pause after every URL; a long pause
      after every context closes, the last keyword's included. Which context
      each URL is processed in is `RunPrefixScoped`. */
  lemma {:induction false} RunPrefixShape(cfg: Config, pages: Pages, download: Downloader, n: nat)
    requires n <= |cfg.keywords|
    ensures Summary(RunPrefix(cfg, pages, download, n),
      AllUrls(cfg, pages, n), ContextSchedule(n), LongPauses(n))
  {
    if n > 0 {
      var prev := RunPrefix(cfg, pages, download, n - 1);
      var block := KeywordBlock(cfg, pages, download, n - 1);
      var urls := Links.CollectLinks(pages(n - 1), cfg.maxVideos);
      assert RunPrefix(cfg, pages, download, n) == prev + block;
      assert AllUrls(cfg, pages, n) == AllUrls(cfg, pages, n - 1) + urls;
      assert ContextSchedule(n) == ContextSchedule(n - 1) + [Opened(n - 1), Closed(n - 1)];
      RunPrefixShape(cfg, pages, download, n - 1);
      KeywordBlockSummary(cfg, pages, download, n - 1);
      SummaryAppend(prev, block,
        AllUrls(cfg, pages, n - 1), ContextSchedule(n - 1), LongPauses(n - 1),
        urls, [Opened(n - 1), Closed(n - 1)], [KeywordPause]);
      LongPausesStep(n);
    }
  }

  /** A run with at least one keyword ends on the long pause. */
  lemma RunPrefixLast(cfg: Config, pages: Pages, download: Downloader, n: nat)
    requires 0 < n <= |cfg.keywords|
    ensures var t := RunPrefix(cfg, pages, download, n); |t| > 0 && t[|t| - 1] == KeywordPause
  {
    var block := KeywordBlock(cfg, pages, download, n - 1);
    assert RunPrefix(cfg, pages, download, n) == RunPrefix(cfg, pages, download, n - 1) + block;
    KeywordBlockLayout(cfg, pages, download, n - 1);
  }

  /** Over the whole run every collected URL is processed while the context
      of its own keyword is open, keyword by keyword, and no context is left
      open at the end. */
  lemma {:induction false} RunPrefixScoped(cfg: Config, pages: Pages, download: Downloader, n: nat)
    requires n <= |cfg.keywords|
    ensures Scoped(RunPrefix(cfg, pages, download, n), None, None, VideosInContexts(cfg, pages, n))
  {
    if n > 0 {
      var prev := RunPrefix(cfg, pages, download, n - 1);
      var block := KeywordBlock(cfg, pages, download, n - 1);
      var urls := Links.CollectLinks(pages(n - 1), cfg.maxVideos);
      assert RunPrefix(cfg, pages, download, n) == prev + block;
      assert VideosInContexts(cfg, pages, n) == VideosInContexts(cfg, pages, n - 1) + Tag(Some(n - 1), urls);
      RunPrefixScoped(cfg, pages, download, n - 1);
      KeywordBlockScoped(cfg, pages, download, n - 1, None);
      ScopedAppend(prev, block, None, None, None, VideosInContexts(cfg, pages, n - 1), Tag(Some(n - 1), urls));
    }
  }

  /** Lines 109-111: process each URL, then pause. */
  method ProcessUrls(download: Downloader, i: nat, urls: seq<string>, maxRetry: int) returns (events: seq<Event>)
    ensures events == Items(download, i, urls, maxRetry)
    ensures Summary(events, urls, [], [])
  {
    events := [];
    var j := 0;
    while j < |urls|
      invariant 0 <= j <= |urls|
      invariant events == Items(download, i, urls[..j], maxRetry)
    {
      events := NextUrl(download, i, urls, maxRetry, events, j);
      j := j + 1;
    }
    assert urls[..j] == urls;
    ItemsShape(download, i, urls, maxRetry);
  }

  /** One turn of the URL loop, lines 110-111. */
  method NextUrl(download: Downloader, i: nat, urls: seq<string>, maxRetry: int, events: seq<Event>, j: nat)
    returns (next: seq<Event>)
    requires j < |urls|
    requires events == Items(download, i, urls[..j], maxRetry)
    ensures next == Items(download, i, urls[..j + 1], maxRetry)
  {
    var saved, attempts := Retry.ProcessVideo(download(i, urls[j]), maxRetry);
    assert urls[..j + 1][..j] == urls[..j];
    next := events + [Video(urls[j], saved, attempts), ItemPause];
  }

  /** Lines 74-114 for the i-th keyword. */
  method ProcessKeyword(cfg: Config, pages: Pages, download: Downloader, i: nat) returns (block: seq<Event>)
    requires i < |cfg.keywords|
    ensures block == KeywordBlock(cfg, pages, download, i)
    ensures Summary(block, Links.CollectLinks(pages(i), cfg.maxVideos), [Opened(i), Closed(i)], [KeywordPause])
    ensures Scoped(block, None, None, Tag(Some(i), Links.CollectLinks(pages(i), cfg.maxVideos)))
  {
    var keyword := cfg.keywords[i];
    var saveDir := Slug.KeywordSlug(keyword);
    var urls, _ := Links.CollectLinksLoop(pages(i), cfg.maxVideos);
    var items := ProcessUrls(download, i, urls, cfg.maxRetry);
    block := [OpenContext(i, saveDir)] + Discovery(keyword) + items + [CloseContext(i), KeywordPause];
    KeywordBlockSummary(cfg, pages, download, i);
    KeywordBlockScoped(cfg, pages, download, i, None);
  }

  /** `main` after the browser has started. Returns the event trace; the
      browser and downloader answers are the `pages` and `download`
      parameters. */
  method Run(cfg: Config, pages: Pages, download: Downloader) returns (trace: seq<Event>)
    ensures trace == RunTrace(cfg, pages, download)
    ensures Summary(trace, AllUrls(cfg, pages, |cfg.keywords|),
      ContextSchedule(|cfg.keywords|), LongPauses(|cfg.keywords|))
    ensures Scoped(trace, None, None, VideosInContexts(cfg, pages, |cfg.keywords|))
    ensures |cfg.keywords| > 0 ==> trace[|trace| - 1] == KeywordPause
  {
    trace := [];
    var i := 0;
    while i < |cfg.keywords|
      invariant 0 <= i <= |cfg.keywords|
      invariant trace == RunPrefix(cfg, pages, download, i)
    {
      trace := NextKeyword(cfg, pages, download, trace, i);
      i := i + 1;
    }
    RunPrefixShape(cfg, pages, download, i);
    RunPrefixScoped(cfg, pages, download, i);
    if i > 0 {
      RunPrefixLast(cfg, pages, download, i);
    }
  }

  /** One turn of the keyword loop of `main`. */
  method NextKeyword(cfg: Config, pages: Pages, download: Downloader, trace: seq<Event>, i: nat)
    returns (next: seq<Event>)
    requires i < |cfg.keywords|
    requires trace == RunPrefix(cfg, pages, download, i)
    ensures next == RunPrefix(cfg, pages, download, i + 1)
  {
    var block := ProcessKeyword(cfg, pages, download, i);
    next := trace + block;
  }
}
