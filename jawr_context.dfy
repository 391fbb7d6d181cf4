/**
 * The Jawr context: the mutable holder of the state shared by one bundle
 * processing run, one field per Java field, updated in place by its setters.
 */
module JawrContexts {

  import opened Wrappers
  import S = JawrContextSpec

  class JawrContext {

    /** The object name of the MBean of the Jawr config manager (None: not registered). */
    var jawrConfigMgrObjectName: Option<S.ObjectName>
    /** Whether the debug setting is overridden. */
    var debugOverriden: bool
    /** Whether bundles are being processed at build time rather than at request time. */
    var bundleProcessingAtBuildTime: bool
    /** The current request URL (None: no request). */
    var requestURL: Option<string>
    /** The stop watch that times the processing (None: not timing). */
    var stopWatch: Option<S.StopWatch>
    /** Whether the bundle processing should stop; an AtomicBoolean in Java. */
    var interruptProcessingBundle: bool

    /** The calls made on this context since it was constructed, oldest first. */
    ghost var history: seq<S.Call>

    /** The fields of this context as one value. */
    ghost function State(): S.ContextState
      reads this
    {
      S.ContextState(jawrConfigMgrObjectName, debugOverriden, bundleProcessingAtBuildTime,
                     requestURL, stopWatch, interruptProcessingBundle)
    }

    /** The fields are what the calls in history leave a new context in. */
    ghost predicate Valid()
      reads this
    {
      State() == S.Run(S.Initial(), history)
    }

    /** A new context: no MBean name, no request URL, no stop watch, every flag false. */
    constructor ()
      ensures Valid() && history == []
      ensures State() == S.Initial()
    {
      jawrConfigMgrObjectName := None;
      debugOverriden := false;
      bundleProcessingAtBuildTime := false;
      requestURL := None;
      stopWatch := None;
      interruptProcessingBundle := false;
      history := [];
    }

    /**
     * Returns the interruptProcessingBundle field: the value last passed to SetInterruptProcessingBundle,
     * or false when there was none or a Reset came after it.
     */
    method IsInterruptingProcessingBundle() returns (interrupt: bool)
      requires Valid()
      ensures interrupt == State().interruptProcessingBundle
      ensures interrupt == S.LatestWrite(history, false, S.InterruptWrite)
    {
      S.RunIsLatestWrite(S.Initial(), history);
      interrupt := interruptProcessingBundle;
    }

    method SetInterruptProcessingBundle(interrupt: bool)
      requires Valid()
      modifies this`interruptProcessingBundle, this`history
      ensures Valid() && history == old(history) + [S.SetInterruptProcessingBundle(interrupt)]
      ensures interruptProcessingBundle == interrupt
      ensures State() == S.Step(old(State()), S.SetInterruptProcessingBundle(interrupt))
    {
      S.RunSnoc(S.Initial(), history, S.SetInterruptProcessingBundle(interrupt));
      interruptProcessingBundle := interrupt;
      history := history + [S.SetInterruptProcessingBundle(interrupt)];
    }

    /**
     * Returns the jawrConfigMgrObjectName field: the value last passed to SetJawrConfigMgrObjectName,
     * or None when there was none or a Reset came after it.
     */
    method GetJawrConfigMgrObjectName() returns (name: Option<S.ObjectName>)
      requires Valid()
      ensures name == State().jawrConfigMgrObjectName
      ensures name == S.LatestWrite(history, None, S.ObjectNameWrite)
    {
      S.RunIsLatestWrite(S.Initial(), history);
      name := jawrConfigMgrObjectName;
    }

    /**
     * Returns the debugOverriden field: the value last passed to SetDebugOverriden,
     * or false when there was none or a Reset came after it.
     */
    method IsDebugOverriden() returns (debug: bool)
      requires Valid()
      ensures debug == State().debugOverriden
      ensures debug == S.LatestWrite(history, false, S.DebugOverridenWrite)
    {
      S.RunIsLatestWrite(S.Initial(), history);
      debug := debugOverriden;
    }

    method SetJawrConfigMgrObjectName(name: Option<S.ObjectName>)
      requires Valid()
      modifies this`jawrConfigMgrObjectName, this`history
      ensures Valid() && history == old(history) + [S.SetJawrConfigMgrObjectName(name)]
      ensures jawrConfigMgrObjectName == name
      ensures State() == S.Step(old(State()), S.SetJawrConfigMgrObjectName(name))
    {
      S.RunSnoc(S.Initial(), history, S.SetJawrConfigMgrObjectName(name));
      jawrConfigMgrObjectName := name;
      history := history + [S.SetJawrConfigMgrObjectName(name)];
    }

    method SetDebugOverriden(debug: bool)
      requires Valid()
      modifies this`debugOverriden, this`history
      ensures Valid() && history == old(history) + [S.SetDebugOverriden(debug)]
      ensures debugOverriden == debug
      ensures State() == S.Step(old(State()), S.SetDebugOverriden(debug))
    {
      S.RunSnoc(S.Initial(), history, S.SetDebugOverriden(debug));
      debugOverriden := debug;
      history := history + [S.SetDebugOverriden(debug)];
    }

    /**
     * Returns the bundleProcessingAtBuildTime field: the value last passed to SetBundleProcessingAtBuildTime,
     * or false when there was none or a Reset came after it.
     */
    method IsBundleProcessingAtBuildTime() returns (atBuildTime: bool)
      requires Valid()
      ensures atBuildTime == State().bundleProcessingAtBuildTime
      ensures atBuildTime == S.LatestWrite(history, false, S.BuildTimeWrite)
    {
      S.RunIsLatestWrite(S.Initial(), history);
      atBuildTime := bundleProcessingAtBuildTime;
    }

    method SetBundleProcessingAtBuildTime(atBuildTime: bool)
      requires Valid()
      modifies this`bundleProcessingAtBuildTime, this`history
      ensures Valid() && history == old(history) + [S.SetBundleProcessingAtBuildTime(atBuildTime)]
      ensures bundleProcessingAtBuildTime == atBuildTime
      ensures State() == S.Step(old(State()), S.SetBundleProcessingAtBuildTime(atBuildTime))
    {
      S.RunSnoc(S.Initial(), history, S.SetBundleProcessingAtBuildTime(atBuildTime));
      bundleProcessingAtBuildTime := atBuildTime;
      history := history + [S.SetBundleProcessingAtBuildTime(atBuildTime)];
    }

    /**
     * Returns the requestURL field: the value last passed to SetRequestURL,
     * or None when there was none or a Reset came after it.
     */
    method GetRequestURL() returns (url: Option<string>)
      requires Valid()
      ensures url == State().requestURL
      ensures url == S.LatestWrite(history, None, S.RequestURLWrite)
    {
      S.RunIsLatestWrite(S.Initial(), history);
      url := requestURL;
    }

    method SetRequestURL(url: Option<string>)
      requires Valid()
      modifies this`requestURL, this`history
      ensures Valid() && history == old(history) + [S.SetRequestURL(url)]
      ensures requestURL == url
      ensures State() == S.Step(old(State()), S.SetRequestURL(url))
    {
      S.RunSnoc(S.Initial(), history, S.SetRequestURL(url));
      requestURL := url;
      history := history + [S.SetRequestURL(url)];
    }

    /**
     * Returns the stopWatch field: the value last passed to SetStopWatch,
     * or None when there was none or a Reset came after it.
     */
    method GetStopWatch() returns (watch: Option<S.StopWatch>)
      requires Valid()
      ensures watch == State().stopWatch
      ensures watch == S.LatestWrite(history, None, S.StopWatchWrite)
    {
      S.RunIsLatestWrite(S.Initial(), history);
      watch := stopWatch;
    }

    method SetStopWatch(watch: Option<S.StopWatch>)
      requires Valid()
      modifies this`stopWatch, this`history
      ensures Valid() && history == old(history) + [S.SetStopWatch(watch)]
      ensures stopWatch == watch
      ensures State() == S.Step(old(State()), S.SetStopWatch(watch))
    {
      S.RunSnoc(S.Initial(), history, S.SetStopWatch(watch));
      stopWatch := watch;
      history := history + [S.SetStopWatch(watch)];
    }

    /**
     * Puts every field back to the value a new context has; since Initial() has the
     * interrupt flag false, no interruption stays pending after a reset.
     */
    method Reset()
      requires Valid()
      modifies this
      ensures Valid() && history == old(history) + [S.Reset]
      ensures State() == S.Initial()
    {
      S.RunSnoc(S.Initial(), history, S.Reset);
      jawrConfigMgrObjectName := None;
      debugOverriden := false;
      bundleProcessingAtBuildTime := false;
      requestURL := None;
      stopWatch := None;
      interruptProcessingBundle := false;
      history := history + [S.Reset];
    }
  }
}
