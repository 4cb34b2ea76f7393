/** The home page container: its UI state, the loading of the latest
    videos, the mount effect and the request-button handler. */
module Home {
  import opened Wrappers
  import opened Sorting
  import opened DayTimes

  /** One entry of the video listing; thumbnails are display-only and are
      not modelled. */
  datatype Video = Video(videoId: string, videoTitle: string, publishTime: int)

  /** The component's state hooks together with the store's video list. */
  datatype HomeState = HomeState(
    isShowRequest: bool,
    isLoading: bool,
    requestType: string,
    currentHours: Option<int>,
    latestVideos: seq<Video>)

  /** What the awaited listing request delivers: the items of the response
      body, or an exception. */
  datatype FetchOutcome = Received(items: seq<Video>) | RequestFailed

  /** The state of the first render, with whatever list the store holds. */
  function InitialState(storeVideos: seq<Video>): (s: HomeState)
    ensures !s.isShowRequest && !s.isLoading && s.currentHours.None?
    ensures s.requestType == ""
    ensures s.latestVideos == storeVideos
  {
    HomeState(false, false, "", None, storeVideos)
  }

  /** The sort key: the comparator `b.publishTime - a.publishTime` orders
      the list newest first. */
  function PublishKey(v: Video): real {
    v.publishTime as real
  }

  /** The synchronous part of `fetchLatestVideo`, up to the awaited request:
      the guard and the raising of the loading flag. The second component
      says whether a request was issued. */
  function BeginFetch(s: HomeState): (r: (HomeState, bool))
    ensures r.1 <==> !s.isLoading
    ensures !r.1 ==> r.0 == s
    ensures r.1 ==> r.0.isLoading && r.0.(isLoading := s.isLoading) == s
  {
    if s.isLoading then (s, false)
    else (s.(isLoading := true), true)
  }

  /** The part of `fetchLatestVideo` after the request settles, applied to
      whatever the state is by then: on success the store receives the items
      newest first; on failure the error is only logged; in both cases the
      `finally` block clears the loading flag. */
  function SettleFetch(s: HomeState, outcome: FetchOutcome): (r: HomeState)
    ensures !r.isLoading
    ensures outcome.Received? ==>
      && SortedDesc(r.latestVideos, PublishKey)
      && multiset(r.latestVideos) == multiset(outcome.items)
    ensures outcome.RequestFailed? ==> r.latestVideos == s.latestVideos
    ensures r.isShowRequest == s.isShowRequest && r.requestType == s.requestType
    ensures r.currentHours == s.currentHours
  {
    match outcome
    case Received(items) =>
      s.(latestVideos := SortDesc(items, PublishKey), isLoading := false)
    case RequestFailed =>
      s.(isLoading := false)
  }

  /** One whole call of `fetchLatestVideo` with nothing else happening while
      the request is pending. */
  function FetchLatestVideo(s: HomeState, outcome: FetchOutcome): (r: HomeState)
    ensures s.isLoading ==> r == s
    ensures !s.isLoading ==> !r.isLoading
    ensures !s.isLoading && outcome.Received? ==>
      && SortedDesc(r.latestVideos, PublishKey)
      && multiset(r.latestVideos) == multiset(outcome.items)
    ensures r.latestVideos != s.latestVideos ==> !s.isLoading && outcome.Received?
    ensures r.isShowRequest == s.isShowRequest && r.requestType == s.requestType
    ensures r.currentHours == s.currentHours
  {
    var (s1, started) := BeginFetch(s);
    if started then SettleFetch(s1, outcome) else s1
  }

  /** Videos published at the same time stay in the order the server sent
      them, because the language's sort is stable. */
  lemma {:induction false} SettleKeepsTiesInServerOrder(s: HomeState, items: seq<Video>, t: int)
    ensures WithKey(SettleFetch(s, Received(items)).latestVideos, PublishKey, t as real)
         == WithKey(items, PublishKey, t as real)
  {
    SortDescStable(items, PublishKey, t as real);
  }

  /** A successful fetch stores exactly the received videos: nothing is
      dropped, invented or duplicated. */
  lemma SettleStoresReceivedVideos(s: HomeState, items: seq<Video>, v: Video)
    ensures v in SettleFetch(s, Received(items)).latestVideos <==> v in items
  {
    SortDescSameElements(items, PublishKey, v);
  }

  /** The mount effect: the listing is requested only when the store's list
      is empty, then the current hour is recorded. The second component says
      whether a request was issued. */
  function MountEffect(s: HomeState, hour: int): (r: (HomeState, bool))
    ensures r.1 <==> |s.latestVideos| == 0 && !s.isLoading
    ensures r.0.currentHours == Some(hour)
    ensures r.0.latestVideos == s.latestVideos
    ensures !r.1 ==> r.0 == s.(currentHours := Some(hour))
    ensures r.1 ==> r.0 == s.(currentHours := Some(hour), isLoading := true)
  {
    var (s1, started) := if |s.latestVideos| == 0 then BeginFetch(s) else (s, false);
    (s1.(currentHours := Some(hour)), started)
  }

  /** A first visit with an empty store: after the mount effect and a
      successful response the page is no longer loading, shows the received
      videos newest first and shows the landscape picture for the hour. */
  lemma FirstVisitScenario(hour: int, items: seq<Video>)
    ensures var (s1, started) := MountEffect(InitialState([]), hour);
      var s2 := SettleFetch(s1, Received(items));
      && started
      && !s2.isLoading
      && SortedDesc(s2.latestVideos, PublishKey)
      && multiset(s2.latestVideos) == multiset(items)
      && s2.currentHours.Some?
      && LandscapeFile(GetDayTime(s2.currentHours)) == "pungmu_" + Label(GetDayTime(Some(hour)).value) + "_s.jpg"
  {
  }

  /** `handleClickButton(t)`: opens the request modal for request type `t`. */
  function HandleClickButton(s: HomeState, t: string): (r: HomeState)
    ensures r.isShowRequest && r.requestType == t
    ensures r.isLoading == s.isLoading && r.currentHours == s.currentHours
    ensures r.latestVideos == s.latestVideos
  {
    s.(isShowRequest := true, requestType := t)
  }

  /** Clicking twice is the same as clicking only the second button. */
  lemma HandleClickButtonLastWins(s: HomeState, t1: string, t2: string)
    ensures HandleClickButton(HandleClickButton(s, t1), t2) == HandleClickButton(s, t2)
  {
  }

  /** The guard of `fetchLatestVideo` as written. The callback is memoised
      with an empty dependency list, so it keeps the `isLoading` it closed
      over at the first render instead of reading the current flag. */
  function BeginFetchAsWritten(capturedIsLoading: bool, s: HomeState): (r: (HomeState, bool))
    ensures r.1 <==> !capturedIsLoading
    ensures !r.1 ==> r.0 == s
    ensures r.1 ==> r.0.isLoading && r.0.(isLoading := s.isLoading) == s
  {
    if capturedIsLoading then (s, false)
    else (s.(isLoading := true), true)
  }

  /** With the guard as written, a second call made while the first request
      is still pending issues a second request; the guard on the current
      flag refuses it. */
  lemma StaleGuardAdmitsSecondRequest(storeVideos: seq<Video>)
    ensures var captured := InitialState(storeVideos).isLoading;
      var (s1, first) := BeginFetchAsWritten(captured, InitialState(storeVideos));
      && first && s1.isLoading
      && BeginFetchAsWritten(captured, s1).1
      && !BeginFetch(s1).1
  {
  }

  /** One whole call of `fetchLatestVideo` as written: the guard tests the
      flag captured at the first render, so a call made while a request is
      pending is not refused. */
  function FetchLatestVideoAsWritten(capturedIsLoading: bool, s: HomeState, outcome: FetchOutcome): (r: HomeState)
    ensures capturedIsLoading ==> r == s
    ensures !capturedIsLoading ==> !r.isLoading
    ensures !capturedIsLoading && outcome.Received? ==>
      && SortedDesc(r.latestVideos, PublishKey)
      && multiset(r.latestVideos) == multiset(outcome.items)
    ensures r.latestVideos != s.latestVideos ==> !capturedIsLoading && outcome.Received?
    ensures r.isShowRequest == s.isShowRequest && r.requestType == s.requestType
    ensures r.currentHours == s.currentHours
  {
    var (s1, started) := BeginFetchAsWritten(capturedIsLoading, s);
    if started then SettleFetch(s1, outcome) else s1
  }

  /** The mount effect as written: it calls the memoised callback, whose
      guard reads the flag captured at the first render. */
  function MountEffectAsWritten(capturedIsLoading: bool, s: HomeState, hour: int): (r: (HomeState, bool))
    ensures r.1 <==> |s.latestVideos| == 0 && !capturedIsLoading
    ensures r.0.currentHours == Some(hour)
    ensures r.0.latestVideos == s.latestVideos
    ensures !r.1 ==> r.0 == s.(currentHours := Some(hour))
    ensures r.1 ==> r.0 == s.(currentHours := Some(hour), isLoading := true)
  {
    var (s1, started) := if |s.latestVideos| == 0 then BeginFetchAsWritten(capturedIsLoading, s) else (s, false);
    (s1.(currentHours := Some(hour)), started)
  }

  /** Running the mount effect twice on an empty store, before the first
      response arrives, issues two requests as written; with the guard on
      the current flag the second run issues none. */
  lemma MountTwiceIssuesTwoRequests(hour: int)
    ensures var captured := InitialState([]).isLoading;
      var (s1, first) := MountEffectAsWritten(captured, InitialState([]), hour);
      && first
      && MountEffectAsWritten(captured, s1, hour).1
      && MountEffect(InitialState([]), hour).1
      && !MountEffect(MountEffect(InitialState([]), hour).0, hour).1
  {
  }
}
