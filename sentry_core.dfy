/**
 * The Sentry zap core of internal/log/sentry.go as a class: its state
 * (flush timeout, client, minimum level, static tags, own fields), the
 * loops that copy tags and fields and build a scope, and Write, which
 * makes exactly the client calls the functions of SentrySpec describe.
 */
module SentryCore {
  import opened Optional
  import opened GoLib
  import opened LogModel
  import opened FieldValue
  import opened SentrySpec

  /**
   * The Sentryer interface, as a recording client: every call is appended
   * to the ghost log `calls`. Whether a flush delivers its events depends
   * on the network; here it is fixed when the client is made.
   */
  class SentryClient {
    ghost var calls: seq<Call>
    const flushDelivers: bool

    constructor (flushDelivers: bool)
      ensures this.flushDelivers == flushDelivers && calls == []
    {
      this.flushDelivers := flushDelivers;
      calls := [];
    }

    method Flush(timeout: Duration) returns (delivered: bool)
      modifies this`calls
      ensures calls == old(calls) + [FlushCall(timeout)]
      ensures delivered == flushDelivers
    {
      calls := calls + [FlushCall(timeout)];
      delivered := flushDelivers;
    }

    method Recover(err: GoError, hint: Hint, scope: Scope)
      modifies this`calls
      ensures calls == old(calls) + [RecoverCall(err, hint, scope)]
    {
      calls := calls + [RecoverCall(err, hint, scope)];
    }

    method CaptureException(exception: GoError, hint: Hint, scope: Scope)
      modifies this`calls
      ensures calls == old(calls) + [CaptureExceptionCall(exception, hint, scope)]
    {
      calls := calls + [CaptureExceptionCall(exception, hint, scope)];
    }

    method CaptureMessage(message: string, hint: Hint, scope: Scope)
      modifies this`calls
      ensures calls == old(calls) + [CaptureMessageCall(message, hint, scope)]
    {
      calls := calls + [CaptureMessageCall(message, hint, scope)];
    }
  }

  /** The part of sentry.ClientOptions newSentryOptions fills in. */
  datatype ClientOptions = ClientOptions(dsn: string, debug: bool, environment: string)

  /** SentryOptions; MinLevel is left at its zero value, which is InfoLevel. */
  datatype SentryOptions = SentryOptions(clientOptions: ClientOptions, minLevel: Level,
                                         flushTimeout: Duration, tags: map<string, string>)

  /** newSentryOptions; the value of the dev-mode constant is a parameter. */
  function NewSentryOptions(dsn: string, mode: string, serviceName: string, modeDev: string): (o: SentryOptions)
    ensures o.clientOptions.dsn == dsn && o.clientOptions.environment == mode
    ensures o.clientOptions.debug <==> mode == modeDev
    ensures o.minLevel == InfoLevel && o.flushTimeout == 0
    ensures o.tags.Keys == {ServiceTag} && o.tags[ServiceTag] == serviceName
  {
    SentryOptions(ClientOptions(dsn, mode == modeDev, mode), 0, 0, map[ServiceTag := serviceName])
  }

  const FlushTimeoutFloor: Duration := 3 * Second

  /** The flush timeout newSentryCore keeps: the configured one, but never less than three seconds. */
  function EffectiveFlushTimeout(configured: Duration): (t: Duration)
    ensures t >= FlushTimeoutFloor && t >= configured
    ensures t == configured || t == FlushTimeoutFloor
  {
    if configured <= FlushTimeoutFloor then FlushTimeoutFloor else configured
  }

  /** Options built by newSentryOptions give a core that flushes with the three-second floor. */
  lemma DefaultOptionsFlushFloor(dsn: string, mode: string, serviceName: string, modeDev: string)
    ensures EffectiveFlushTimeout(NewSentryOptions(dsn, mode, serviceName, modeDev).flushTimeout) == FlushTimeoutFloor
  {
  }

  /** The `for key, value := range src { dst[key] = value }` loop into a fresh map. */
  method CopyTags(src: map<string, string>) returns (dst: map<string, string>)
    ensures dst == src
  {
    dst := map[];
    var remaining := src.Keys;
    while remaining != {}
      invariant remaining <= src.Keys
      invariant forall k :: k in dst <==> k in src && k !in remaining
      invariant forall k :: k in dst ==> dst[k] == src[k]
      decreases |remaining|
    {
      var key :| key in remaining;
      dst := dst[key := src[key]];
      remaining := remaining - {key};
    }
    assert dst.Keys == src.Keys;
  }

  /** What sentry.NewClient gives back: a client, or its error. */
  datatype NewClientResult = Created(client: SentryClient) | NewClientFailed(reason: string)

  class SentryCore {
    var flushTimeout: Duration
    var client: SentryClient
    var level: Level
    var tags: map<string, string>
    var fields: seq<Field>

    /** The &SentryCore{...} literal. */
    constructor (flushTimeout: Duration, client: SentryClient, level: Level,
                 tags: map<string, string>, fields: seq<Field>)
      ensures this.flushTimeout == flushTimeout && this.client == client && this.level == level
      ensures this.tags == tags && this.fields == fields
    {
      this.flushTimeout := flushTimeout;
      this.client := client;
      this.level := level;
      this.tags := tags;
      this.fields := fields;
    }

    /** An entry is enabled when it is at least as severe as the core's minimum level. */
    predicate Enabled(lvl: Level)
      reads this
    {
      level <= lvl
    }

    /** Check adds this core to the checked entry (a nil one being empty) only when the entry is enabled. */
    method Check(entry: Entry, checked: seq<SentryCore>) returns (r: seq<SentryCore>)
      ensures Enabled(entry.level) ==> r == checked + [this]
      ensures !Enabled(entry.level) ==> r == checked
      ensures |r| <= |checked| + 1 && r[..|checked|] == checked
    {
      if Enabled(entry.level) {
        r := checked + [this];
      } else {
        r := checked;
      }
    }

    /** Sync flushes with the core's timeout and fails iff the flush does not deliver. */
    method Sync() returns (err: Option<string>)
      modifies client`calls
      ensures client.calls == old(client.calls) + [FlushCall(flushTimeout)]
      ensures err.None? <==> client.flushDelivers
      ensures err.Some? ==> err.value == "flush failed"
    {
      var delivered := client.Flush(flushTimeout);
      if !delivered {
        return Some("flush failed");
      }
      return None;
    }

    /** With is clone. */
    method With(newFields: seq<Field>) returns (c: SentryCore)
      ensures fresh(c)
      ensures c.client == client && c.level == level && c.tags == tags
      ensures c.fields == newFields && c.flushTimeout == 0
    {
      c := Clone(newFields);
    }

    /**
     * clone: a fresh core sharing the client, with the level and a copy of
     * the tags. Its fields are the new fields only, because copying into a
     * nil slice drops the parent's, and its flush timeout is left zero.
     */
    method Clone(newFields: seq<Field>) returns (c: SentryCore)
      ensures fresh(c)
      ensures c.client == client && c.level == level && c.tags == tags
      ensures c.fields == newFields && c.flushTimeout == 0
    {
      var clonedTags := CopyTags(tags);
      var arrayFields: seq<Field> := [];
      arrayFields := Copy(arrayFields, fields);
      arrayFields := arrayFields + newFields;
      c := new SentryCore(0, client, level, clonedTags, [] + arrayFields);
    }

    /** applyFieldsToScope: the extras loop over the call-site copy followed by the core's fields. */
    method ApplyFieldsToScope(scope: Scope, callSite: seq<Field>) returns (r: Result<Scope>)
      ensures var x := ExtrasOf(ScopeFields(callSite, fields));
        r == (if x.Ok? then Ok(scope.(extras := scope.extras + x.value)) else Err(x.failure))
    {
      var extras: map<string, Value> := map[];
      var arrayFields: seq<Field> := Copy([], callSite);
      arrayFields := arrayFields + fields;
      var i := 0;
      while i < |arrayFields|
        invariant i <= |arrayFields|
        invariant ExtrasFrom(arrayFields, i, extras) == ExtrasOf(arrayFields)
      {
        var field := arrayFields[i];
        if !HasPrefix(field.key, "_") && !LowerEquals(field.key, ErrorKeyName) && !HasPrefix(field.key, ZapFieldPrefix) {
          var value := FieldValueAsInterface(field);
          if value.Err? {
            return Err(value.failure);
          }
          extras := extras[field.key := value.value];
        }
        i := i + 1;
      }
      return Ok(scope.(extras := scope.extras + extras));
    }

    /** applyTagsToScope: set the static tags, then one tag per marked field. */
    method ApplyTagsToScope(scope: Scope, callSite: seq<Field>, sprintV: Value -> string) returns (r: Result<Scope>)
      ensures var t := TagsFrom(ScopeFields(callSite, fields), 0, scope.tags + tags, sprintV);
        r == (if t.Ok? then Ok(scope.(tags := t.value)) else Err(t.failure))
    {
      var result := scope.(tags := scope.tags + tags);
      var arrayFields: seq<Field> := Copy([], callSite);
      arrayFields := arrayFields + fields;
      var i := 0;
      while i < |arrayFields|
        invariant i <= |arrayFields|
        invariant TagsFrom(arrayFields, i, result.tags, sprintV) == TagsFrom(arrayFields, 0, scope.tags + tags, sprintV)
        invariant result == scope.(tags := result.tags)
      {
        var field := arrayFields[i];
        if HasPrefix(field.key, PrefixTagZapField) {
          var tag := field.key[4..];
          var value := FieldValueAsInterface(field);
          if value.Err? {
            return Err(value.failure);
          }
          if tag != "" {
            result := result.(tags := result.tags[tag := sprintV(value.value)]);
          }
        }
        i := i + 1;
      }
      return Ok(result);
    }

    /** createScope: a new scope with the mapped level, then extras, then tags. */
    method CreateScope(entry: Entry, callSite: seq<Field>, sprintV: Value -> string) returns (r: Result<Scope>)
      ensures r == ScopeFor(entry.level, fields, tags, callSite, sprintV)
    {
      var levelSentry := LevelToSentryLevel(entry.level);
      if levelSentry.Err? {
        return Err(levelSentry.failure);
      }
      var scope := Scope(levelSentry.value, map[], map[]);
      var withExtras := ApplyFieldsToScope(scope, callSite);
      if withExtras.Err? {
        return Err(withExtras.failure);
      }
      assert map[] + ExtrasOf(ScopeFields(callSite, fields)).value == ExtrasOf(ScopeFields(callSite, fields)).value;
      assert map[] + tags == tags;
      r := ApplyTagsToScope(withExtras.value, callSite, sprintV);
    }

    /**
     * Write: build the scope, then make the one client call the entry's
     * level selects, or fail without calling the client.
     */
    method Write(entry: Entry, callSite: seq<Field>, sprintV: Value -> string) returns (outcome: Outcome)
      modifies client`calls
      ensures var d := WriteSpec(entry, callSite, fields, tags, sprintV);
        outcome == d.outcome && client.calls == old(client.calls) + d.calls
    {
      var scopeResult := CreateScope(entry, callSite, sprintV);
      if scopeResult.Err? {
        return Failed(scopeResult.failure);
      }
      var scope := scopeResult.value;
      if entry.level == ErrorLevel {
        var errResult := ErrorFromFields(entry.message, callSite);
        if errResult.Err? {
          return Failed(errResult.failure);
        }
        var err := errResult.value;
        if err.PanicWrapper? {
          scope := scope.(level := LevelFatal);
          client.Recover(err, RecoveredHint(err), scope);
        } else {
          client.CaptureException(err, ExceptionHint(entry.message, err), scope);
        }
      } else if entry.level == PanicLevel || entry.level == DPanicLevel {
        var errResult := ErrorFromFields(entry.message, callSite);
        if errResult.Err? {
          return Failed(errResult.failure);
        }
        client.Recover(errResult.value, RecoveredHint(errResult.value), scope);
      } else if entry.level == InfoLevel || entry.level == WarnLevel || entry.level == DebugLevel {
        client.CaptureMessage(entry.message, NoHint, scope);
      } else {
        return Failed(UnknownLevel(entry.level));
      }
      return Done;
    }
  }

  /** Gating follows zap's order: a core enabled at one level is enabled at every more severe one. */
  lemma EnabledUpwardClosed(core: SentryCore, a: Level, b: Level)
    requires a <= b && core.Enabled(a)
    ensures core.Enabled(b)
  {
  }

  /** The seven named levels in zap order, and where a core at minimum level Info lets entries through. */
  lemma EnabledAtInfo(core: SentryCore)
    requires core.level == InfoLevel
    ensures !core.Enabled(DebugLevel)
    ensures core.Enabled(InfoLevel) && core.Enabled(WarnLevel) && core.Enabled(ErrorLevel)
    ensures core.Enabled(DPanicLevel) && core.Enabled(PanicLevel) && core.Enabled(FatalLevel)
    ensures DebugLevel < InfoLevel < WarnLevel < ErrorLevel < DPanicLevel < PanicLevel < FatalLevel
  {
  }

  /**
   * newSentryCore: fail with the client's error, or build a core whose
   * timeout has the three-second floor, whose tags are a copy of the
   * option tags and which has no fields.
   */
  method NewSentryCore(options: SentryOptions, newClient: NewClientResult) returns (core: SentryCore?, err: Option<string>)
    ensures newClient.NewClientFailed? ==> core == null && err == Some(newClient.reason)
    ensures newClient.Created? ==>
      err == None && core != null && fresh(core) && core.client == newClient.client
      && core.level == options.minLevel && core.tags == options.tags && core.fields == []
      && core.flushTimeout == EffectiveFlushTimeout(options.flushTimeout)
  {
    if newClient.NewClientFailed? {
      return null, Some(newClient.reason);
    }
    var timeout := options.flushTimeout;
    if timeout <= 3 * Second {
      timeout := 3 * Second;
    }
    var newTags := CopyTags(options.tags);
    core := new SentryCore(timeout, newClient.client, options.minLevel, newTags, []);
    err := None;
  }
}
