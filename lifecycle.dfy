/**
  Any sequence of calls on the one context filter of a process, and what
  stays true along it: the resolved ids are final, the location-screen flag
  only rises and only because of a location-screen call, and the API key is
  read once.
 */
module Lifecycle {
  import opened Wrappers
  import opened LoggingUtils

  /** One call on the filter, with the outside world's answer where it consults one. */
  datatype Call =
    | Construct(configKey: Option<string>)                // `ContextFilter()` again
    | Stamp                                               // `filter(record)`
    | Resolution(isLocationScreen: bool, fetch: Fetch)    // `get_and_save_install_id(...)`
    | Notify(hasNotification: bool, fetch: Fetch)         // `bugsnag_before_notify_callback(...)`
    | Report                                              // `send_install_result(...)`

  function Step(s: ContextState, call: Call, stage: string): (r: ContextState)
  {
    match call
    case Construct(configKey) => ReadApiKey(s, configKey)
    case Stamp => s
    case Resolution(isLocationScreen, fetch) => Resolve(s, isLocationScreen, stage, fetch)
    case Notify(hasNotification, fetch) => if hasNotification then BeforeNotify(s, stage, fetch) else s
    case Report => s
  }

  function Run(s: ContextState, calls: seq<Call>, stage: string): (r: ContextState)
    decreases |calls|
  {
    if calls == [] then s else Run(Step(s, calls[0], stage), calls[1..], stage)
  }

  /** Once the ids are resolved, no later call changes them, the flag, or the location-screen flag. */
  lemma {:induction false} ResolvedIsFinal(s: ContextState, calls: seq<Call>, stage: string)
    requires s.haveInstallId
    ensures var t := Run(s, calls, stage);
      t.haveInstallId && t.id == s.id && t.install == s.install && t.afterLocationScreen == s.afterLocationScreen
    decreases |calls|
  {
    if calls != [] {
      var next := Step(s, calls[0], stage);
      assert next.(apiKey := s.apiKey) == s;
      ResolvedIsFinal(next, calls[1..], stage);
    }
  }

  /** A `get_and_save_install_id` call that passes `is_location_screen=True`. */
  predicate RaisesLocationFlag(call: Call)
  {
    call.Resolution? && call.isLocationScreen
  }

  /**
    The location-screen flag is never lowered, and it is raised only by a
    `get_and_save_install_id(is_location_screen=True)` call made while the
    ids were still unresolved.
   */
  lemma {:induction false} LocationFlagOneWay(s: ContextState, calls: seq<Call>, stage: string)
    ensures s.afterLocationScreen ==> Run(s, calls, stage).afterLocationScreen
    ensures Run(s, calls, stage).afterLocationScreen ==>
      s.afterLocationScreen
      || exists i :: 0 <= i < |calls| && RaisesLocationFlag(calls[i]) && !Run(s, calls[..i], stage).haveInstallId
    decreases |calls|
  {
    if calls != [] {
      var next := Step(s, calls[0], stage);
      LocationFlagOneWay(next, calls[1..], stage);
      if Run(s, calls, stage).afterLocationScreen && !s.afterLocationScreen {
        assert calls[..0] == [];
        if next.afterLocationScreen {
          // Only the first call can have raised the flag, and it found the ids unresolved.
          assert RaisesLocationFlag(calls[0]) && !Run(s, calls[..0], stage).haveInstallId;
        } else {
          var j :| 0 <= j < |calls[1..]| && RaisesLocationFlag(calls[1..][j])
                   && !Run(next, calls[1..][..j], stage).haveInstallId;
          var prefix := calls[..j + 1];
          assert prefix[0] == calls[0] && prefix[1..] == calls[1..][..j];
          assert RaisesLocationFlag(calls[j + 1]) && !Run(s, calls[..j + 1], stage).haveInstallId;
        }
      }
    }
  }

  /** The API key, once read, is kept for the rest of the process. */
  lemma {:induction false} ApiKeyReadOnce(s: ContextState, calls: seq<Call>, stage: string)
    requires s.apiKey.Some?
    ensures Run(s, calls, stage).apiKey == s.apiKey
    decreases |calls|
  {
    if calls != [] {
      ApiKeyReadOnce(Step(s, calls[0], stage), calls[1..], stage);
    }
  }

  /**
    In the development stage, the first `get_and_save_install_id` call
    resolves the ids to the fixed development values, and they stay so.
   */
  lemma DevelopmentResolvesOnFirstCall(s: ContextState, isLocationScreen: bool, fetch: Fetch, calls: seq<Call>)
    requires !s.haveInstallId
    ensures var t := Run(s, [Resolution(isLocationScreen, fetch)] + calls, DEVELOPMENT);
      t.haveInstallId && t.id == Text("0.0.0.0") && t.install == Text("development")
  {
    var all := [Resolution(isLocationScreen, fetch)] + calls;
    assert all[1..] == calls;
    ResolvedIsFinal(Resolve(s, isLocationScreen, DEVELOPMENT, fetch), calls, DEVELOPMENT);
  }

  /**
    Outside the development stage, a key file whose line is empty blocks
    resolution for good: the empty key is never re-read and yields no URL.
   */
  lemma {:induction false} EmptyKeyNeverResolves(s: ContextState, calls: seq<Call>, stage: string)
    requires stage != DEVELOPMENT && !s.haveInstallId && s.apiKey == Some("")
    ensures !Run(s, calls, stage).haveInstallId
    decreases |calls|
  {
    if calls != [] {
      EmptyKeyNeverResolves(Step(s, calls[0], stage), calls[1..], stage);
    }
  }
}
