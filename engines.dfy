/**
 * Engine lifetime: an engine either comes from the caller (and stays the
 * caller's) or is created here from credentials and tagged with whether the
 * extraction that uses it may dispose of it afterwards.
 */
module Engines {
  import opened Wrappers
  import opened Backends

  /** A database URL: the driver name (`postgresql+psycopg2`) and the rest. */
  datatype Url = Url(drivername: string, location: string)

  /** The URL as text, password included. */
  function Render(u: Url): string {
    u.drivername + "://" + u.location
  }

  /** `get_backend_name()`: the driver name up to its first `+`, or all of it when it has none. */
  function BackendName(drivername: string): (b: string)
    ensures b <= drivername && '+' !in b
    ensures |b| == |drivername| || drivername[|b|] == '+'
  {
    if drivername == [] || drivername[0] == '+' then [] else [drivername[0]] + BackendName(drivername[1..])
  }

  /** The URL handed to the bulk reader: the driver name replaced by the backend name. */
  function ConnectorXUrl(u: Url): (s: string)
    ensures BackendName(u.drivername) + "://" <= s
    ensures |u.location| <= |s| && s[|s| - |u.location|..] == u.location
  {
    Render(u.(drivername := BackendName(u.drivername)))
  }

  class Engine {
    const url: Url
    const options: Kwargs
    /** The `may_dispose_after_use` attribute; `None` while it was never set. */
    var mayDisposeAfterUse: Option<bool>
    /** How many times `dispose()` has been called. */
    var disposeCount: nat

    /** `create_engine(url, **options)`: a new engine carries no ownership tag. */
    constructor (url: Url, options: Kwargs)
      ensures this.url == url && this.options == options
      ensures mayDisposeAfterUse.None? && disposeCount == 0
    {
      this.url := url;
      this.options := options;
      mayDisposeAfterUse := None;
      disposeCount := 0;
    }

    /** `getattr(engine, "may_dispose_after_use", False)` */
    predicate MayDispose()
      reads this
    {
      mayDisposeAfterUse.GetOr(false)
    }

    /** `engine.dispose()`: releases the pooled connections; nothing else changes. */
    method Dispose()
      modifies this`disposeCount
      ensures disposeCount == old(disposeCount) + 1
    {
      disposeCount := disposeCount + 1;
    }
  }

  datatype Credentials =
      /** an engine built by the caller */
    | ExistingEngine(engine: Engine)
      /** a structured descriptor, represented by the URL it renders to */
    | Descriptor(native: Url)
      /** a connection string */
    | ConnectionString(url: Url)

  /** The URL an engine is created from: the descriptor's native form or the string itself. */
  function NativeUrl(credentials: Credentials): Url
    requires !credentials.ExistingEngine?
  {
    if credentials.Descriptor? then credentials.native else credentials.url
  }

  /**
   * `engine_from_credentials`: a caller's engine is returned as it is, with no
   * tag set; otherwise a new engine is created and tagged with `mayDisposeAfterUse`.
   */
  method EngineFromCredentials(credentials: Credentials, mayDisposeAfterUse: bool, options: Kwargs)
    returns (e: Engine)
    ensures credentials.ExistingEngine? ==> e == credentials.engine && unchanged(e)
    ensures !credentials.ExistingEngine? ==>
      && fresh(e)
      && e.url == NativeUrl(credentials) && e.options == options
      && e.mayDisposeAfterUse == Some(mayDisposeAfterUse) && e.disposeCount == 0
    ensures !credentials.ExistingEngine? ==> (e.MayDispose() <==> mayDisposeAfterUse)
  {
    if credentials.ExistingEngine? {
      return credentials.engine;
    }
    e := new Engine(NativeUrl(credentials), options);
    e.mayDisposeAfterUse := Some(mayDisposeAfterUse);
  }
}
