/**
 * The decisions of the Sentry core (internal/log/sentry.go) as functions:
 * the level mapping, which fields become extras and tags, the scope a
 * report carries, which error a report is about, and which single client
 * operation a Write performs. The class in SentryCore computes the same
 * things step by step and is proved against these functions.
 */
module SentrySpec {
  import opened Optional
  import opened GoLib
  import opened LogModel
  import opened FieldValue

  const ServiceTag: string := "service"
  const PrefixTagZapField: string := "prefixTagZapField"
  const ZapFieldPrefix: string := "zapfield_prefix"
  const ErrorFieldName: string := "_error"
  const ErrorKeyName: string := "error"

  /** sentry.Level values the core uses. */
  datatype SentryLevel = LevelDebug | LevelInfo | LevelWarning | LevelError | LevelFatal

  /** The part of a sentry.Scope the core fills in. */
  datatype Scope = Scope(level: SentryLevel, tags: map<string, string>, extras: map<string, Value>)

  /** The *sentry.EventHint the core passes along with a report. */
  datatype Hint =
    | NoHint
    | RecoveredHint(recovered: GoError)
    | ExceptionHint(data: string, original: GoError)

  /** One call the core makes on its Sentry client. */
  datatype Call =
    | FlushCall(timeout: Duration)
    | RecoverCall(err: GoError, hint: Hint, scope: Scope)
    | CaptureExceptionCall(exception: GoError, hint: Hint, scope: Scope)
    | CaptureMessageCall(message: string, hint: Hint, scope: Scope)

  /** levelToSentryLevel; any level outside the seven named ones panics. */
  function LevelToSentryLevel(l: Level): Result<SentryLevel> {
    if l == DebugLevel then Ok(LevelDebug)
    else if l == InfoLevel then Ok(LevelInfo)
    else if l == WarnLevel then Ok(LevelWarning)
    else if l == ErrorLevel then Ok(LevelError)
    else if l == DPanicLevel then Ok(LevelFatal)
    else if l == PanicLevel then Ok(LevelFatal)
    else if l == FatalLevel then Ok(LevelFatal)
    else Err(Panicked(LevelOutOfRange(l)))
  }

  predicate IsNamedLevel(l: Level) { DebugLevel <= l <= FatalLevel }

  /** The three most severe levels all report as fatal; the rest keep their name; others panic. */
  lemma LevelMapping(l: Level)
    ensures LevelToSentryLevel(l).Ok? <==> IsNamedLevel(l)
    ensures LevelToSentryLevel(l) == Ok(LevelFatal) <==> l in {DPanicLevel, PanicLevel, FatalLevel}
    ensures l == DebugLevel <==> LevelToSentryLevel(l) == Ok(LevelDebug)
    ensures l == InfoLevel <==> LevelToSentryLevel(l) == Ok(LevelInfo)
    ensures l == WarnLevel <==> LevelToSentryLevel(l) == Ok(LevelWarning)
    ensures l == ErrorLevel <==> LevelToSentryLevel(l) == Ok(LevelError)
    ensures !IsNamedLevel(l) ==> LevelToSentryLevel(l) == Err(Panicked(LevelOutOfRange(l)))
  {
  }

  // ---------------------------------------------------------------------
  // Extras and tags

  /** The filter of applyFieldsToScope. It tests ZapFieldPrefix, not PrefixTagZapField. */
  predicate IsExtraKey(key: string) {
    !HasPrefix(key, "_") && !LowerEquals(key, ErrorKeyName) && !HasPrefix(key, ZapFieldPrefix)
  }

  /** The test of applyTagsToScope. */
  predicate IsTagKey(key: string) { HasPrefix(key, PrefixTagZapField) }

  /** The tag name applyTagsToScope derives: the key minus its first four bytes. */
  function TagName(key: string): string
    requires IsTagKey(key)
  {
    key[4..]
  }

  /** The tag name keeps all but four bytes of the marker, so it is never empty. */
  lemma TagNameNeverEmpty(key: string)
    requires IsTagKey(key)
    ensures TagName(key) != ""
    ensures HasPrefix(TagName(key), "ixTagZapField")
    ensures TagName(key) == "ixTagZapField" + key[|PrefixTagZapField|..]
  {
    assert key[..|PrefixTagZapField|] == PrefixTagZapField;
    assert TagName(key)[..13] == key[4..17];
  }

  /** Field keys carrying the tag marker pass the extras filter, so tag fields are extras too. */
  lemma TagKeysAreExtraKeys(key: string)
    requires IsTagKey(key)
    ensures IsExtraKey(key)
  {
    assert key[..|PrefixTagZapField|] == PrefixTagZapField;
    assert key[0] == 'p';
    assert !HasPrefix(key, "_") by { assert key[..1][0] == 'p'; }
    assert !HasPrefix(key, ZapFieldPrefix) by { assert key[..|ZapFieldPrefix|][0] == 'p'; }
  }

  /**
   * The fields createScope walks: `copy` into a nil slice copies nothing,
   * so the call-site fields are dropped and only the core's own remain.
   */
  function ScopeFields(callSite: seq<Field>, coreFields: seq<Field>): seq<Field> {
    Copy([], callSite) + coreFields
  }

  lemma ScopeFieldsAreCoreFields(callSite: seq<Field>, coreFields: seq<Field>)
    ensures ScopeFields(callSite, coreFields) == coreFields
  {
    CopyIntoNil(callSite);
  }

  /** The extras loop of applyFieldsToScope from position i on, with `acc` built so far. */
  function ExtrasFrom(fs: seq<Field>, i: nat, acc: map<string, Value>): Result<map<string, Value>>
    requires i <= |fs|
    decreases |fs| - i
  {
    if i == |fs| then Ok(acc)
    else if IsExtraKey(fs[i].key) then
      match FieldValueAsInterface(fs[i])
      case Err(e) => Err(e)
      case Ok(v) => ExtrasFrom(fs, i + 1, acc[fs[i].key := v])
    else ExtrasFrom(fs, i + 1, acc)
  }

  function ExtrasOf(fs: seq<Field>): Result<map<string, Value>> {
    ExtrasFrom(fs, 0, map[])
  }

  /** The tags loop of applyTagsToScope from position i on, with `acc` built so far. */
  function TagsFrom(fs: seq<Field>, i: nat, acc: map<string, string>, sprintV: Value -> string)
    : Result<map<string, string>>
    requires i <= |fs|
    decreases |fs| - i
  {
    if i == |fs| then Ok(acc)
    else if IsTagKey(fs[i].key) then
      var tag := TagName(fs[i].key);
      match FieldValueAsInterface(fs[i])
      case Err(e) => Err(e)
      case Ok(v) => TagsFrom(fs, i + 1, if tag != "" then acc[tag := sprintV(v)] else acc, sprintV)
    else TagsFrom(fs, i + 1, acc, sprintV)
  }

  /** scope.SetTags(s.tags) followed by the tags loop. */
  function TagsOf(staticTags: map<string, string>, fs: seq<Field>, sprintV: Value -> string)
    : Result<map<string, string>>
  {
    TagsFrom(fs, 0, staticTags, sprintV)
  }

  /** createScope: level first, then extras, then tags; the first failure wins. */
  function ScopeFor(level: Level, coreFields: seq<Field>, coreTags: map<string, string>,
                    callSite: seq<Field>, sprintV: Value -> string): Result<Scope>
  {
    match LevelToSentryLevel(level)
    case Err(f) => Err(f)
    case Ok(sl) =>
      var fs := ScopeFields(callSite, coreFields);
      match ExtrasOf(fs)
      case Err(f) => Err(f)
      case Ok(extras) =>
        match TagsOf(coreTags, fs, sprintV)
        case Err(f) => Err(f)
        case Ok(tags) => Ok(Scope(sl, tags, extras))
  }

  ghost predicate ExtraKeyIn(fs: seq<Field>, i: nat, k: string) {
    exists j :: i <= j < |fs| && fs[j].key == k && IsExtraKey(k)
  }

  ghost predicate IsLastWithKey(fs: seq<Field>, j: int)
    requires 0 <= j < |fs|
  {
    forall l :: j < l < |fs| ==> fs[l].key != fs[j].key
  }

  /** A filtered key occurs from position i on iff it is the key at i or occurs from i + 1 on. */
  lemma ExtraKeyInStep(fs: seq<Field>, i: nat)
    requires i < |fs|
    ensures forall k :: ExtraKeyIn(fs, i, k) <==> (fs[i].key == k && IsExtraKey(k)) || ExtraKeyIn(fs, i + 1, k)
  {
    forall k ensures ExtraKeyIn(fs, i, k) <==> (fs[i].key == k && IsExtraKey(k)) || ExtraKeyIn(fs, i + 1, k) {
      if ExtraKeyIn(fs, i, k) && fs[i].key != k {
        var j :| i <= j < |fs| && fs[j].key == k && IsExtraKey(k);
        assert i + 1 <= j;
      }
      if fs[i].key == k && IsExtraKey(k) {
        assert i <= i < |fs| && fs[i].key == k;
      }
      if ExtraKeyIn(fs, i + 1, k) {
        var j :| i + 1 <= j < |fs| && fs[j].key == k && IsExtraKey(k);
        assert i <= j;
      }
    }
  }

  /** The last field with its key has no later field with that key. */
  lemma LastWithKeyNotLater(fs: seq<Field>, i: nat)
    requires i < |fs| && IsLastWithKey(fs, i)
    ensures !ExtraKeyIn(fs, i + 1, fs[i].key)
  {
  }

  /**
   * What the extras loop builds: exactly the filtered keys, each holding the
   * value of its LAST field (later duplicates overwrite earlier ones), and
   * whatever was there before for keys no later field touches.
   */
  lemma {:induction false} ExtrasFromContents(fs: seq<Field>, i: nat, acc: map<string, Value>)
    requires i <= |fs|
    requires ExtrasFrom(fs, i, acc).Ok?
    ensures forall k :: k in ExtrasFrom(fs, i, acc).value <==> k in acc || ExtraKeyIn(fs, i, k)
    ensures forall j :: i <= j < |fs| && IsExtraKey(fs[j].key) && IsLastWithKey(fs, j) ==>
      FieldValueAsInterface(fs[j]).Ok? && fs[j].key in ExtrasFrom(fs, i, acc).value
      && ExtrasFrom(fs, i, acc).value[fs[j].key] == FieldValueAsInterface(fs[j]).value
    ensures forall k :: k in acc && !ExtraKeyIn(fs, i, k) ==> ExtrasFrom(fs, i, acc).value[k] == acc[k]
    decreases |fs| - i
  {
    if i < |fs| {
      var key := fs[i].key;
      ExtraKeyInStep(fs, i);
      if IsExtraKey(key) {
        var v := FieldValueAsInterface(fs[i]).value;
        var acc' := acc[key := v];
        ExtrasFromContents(fs, i + 1, acc');
        assert ExtrasFrom(fs, i, acc) == ExtrasFrom(fs, i + 1, acc');
        if IsLastWithKey(fs, i) {
          LastWithKeyNotLater(fs, i);
        }
      } else {
        ExtrasFromContents(fs, i + 1, acc);
      }
    }
  }

  /** The extras of a field list: filtered keys only, each with its last field's value. */
  lemma ExtrasLastWriteWins(fs: seq<Field>)
    requires ExtrasOf(fs).Ok?
    ensures forall k :: k in ExtrasOf(fs).value <==> exists j :: 0 <= j < |fs| && fs[j].key == k && IsExtraKey(k)
    ensures forall j :: 0 <= j < |fs| && IsExtraKey(fs[j].key) && IsLastWithKey(fs, j) ==>
      FieldValueAsInterface(fs[j]).Ok? && fs[j].key in ExtrasOf(fs).value
      && ExtrasOf(fs).value[fs[j].key] == FieldValueAsInterface(fs[j]).value
  {
    ExtrasFromContents(fs, 0, map[]);
  }

  ghost predicate DecodeFailsAt(fs: seq<Field>, j: int)
    requires 0 <= j < |fs|
  {
    IsExtraKey(fs[j].key) && FieldValueAsInterface(fs[j]).Err?
  }

  /** The extras loop fails iff some filtered field fails to decode, and then with the first such failure. */
  lemma {:induction false} ExtrasFromFailure(fs: seq<Field>, i: nat, acc: map<string, Value>)
    requires i <= |fs|
    ensures ExtrasFrom(fs, i, acc).Err? <==> exists j :: i <= j < |fs| && DecodeFailsAt(fs, j)
    ensures forall j :: i <= j < |fs| && DecodeFailsAt(fs, j) && (forall l :: i <= l < j ==> !DecodeFailsAt(fs, l)) ==>
      FieldValueAsInterface(fs[j]).Err? && ExtrasFrom(fs, i, acc) == Err(FieldValueAsInterface(fs[j]).failure)
    decreases |fs| - i
  {
    if i < |fs| {
      var key := fs[i].key;
      if IsExtraKey(key) && FieldValueAsInterface(fs[i]).Ok? {
        ExtrasFromFailure(fs, i + 1, acc[key := FieldValueAsInterface(fs[i]).value]);
      } else if !IsExtraKey(key) {
        ExtrasFromFailure(fs, i + 1, acc);
      } else {
        assert DecodeFailsAt(fs, i);
      }
    }
  }

  /** A core field that cannot be decoded, such as a zap.Skip field, makes every scope fail. */
  lemma UndecodableCoreFieldBlocksScope(level: Level, coreFields: seq<Field>, coreTags: map<string, string>,
                                        callSite: seq<Field>, sprintV: Value -> string, j: int)
    requires IsNamedLevel(level)
    requires 0 <= j < |coreFields| && DecodeFailsAt(coreFields, j)
    ensures ScopeFor(level, coreFields, coreTags, callSite, sprintV).Err?
  {
    ScopeFieldsAreCoreFields(callSite, coreFields);
    ExtrasFromFailure(coreFields, 0, map[]);
  }

  lemma SkipFieldIsUndecodable(fs: seq<Field>, j: int)
    requires 0 <= j < |fs| && fs[j] == ZapSkip()
    ensures DecodeFailsAt(fs, j)
  {
  }

  ghost predicate TagNamedIn(fs: seq<Field>, i: nat, k: string) {
    exists j :: i <= j < |fs| && IsTagKey(fs[j].key) && TagName(fs[j].key) == k
  }

  /** The tags loop fails only on a tag field that does not decode. */
  lemma {:induction false} TagsFromDefined(fs: seq<Field>, i: nat, acc: map<string, string>, sprintV: Value -> string)
    requires i <= |fs|
    requires forall j :: i <= j < |fs| && IsTagKey(fs[j].key) ==> FieldValueAsInterface(fs[j]).Ok?
    ensures TagsFrom(fs, i, acc, sprintV).Ok?
    decreases |fs| - i
  {
    if i < |fs| {
      if IsTagKey(fs[i].key) {
        var tag := TagName(fs[i].key);
        var v := FieldValueAsInterface(fs[i]).value;
        TagsFromDefined(fs, i + 1, if tag != "" then acc[tag := sprintV(v)] else acc, sprintV);
      } else {
        TagsFromDefined(fs, i + 1, acc, sprintV);
      }
    }
  }

  /**
   * Every tag field has already been decoded as an extra, so once the
   * extras are built, building the tags cannot fail.
   */
  lemma TagsNeverFailAfterExtras(fs: seq<Field>, staticTags: map<string, string>, sprintV: Value -> string)
    requires ExtrasOf(fs).Ok?
    ensures TagsOf(staticTags, fs, sprintV).Ok?
  {
    ExtrasFromFailure(fs, 0, map[]);
    forall j | 0 <= j < |fs| && IsTagKey(fs[j].key) ensures FieldValueAsInterface(fs[j]).Ok? {
      TagKeysAreExtraKeys(fs[j].key);
      assert !DecodeFailsAt(fs, j);
    }
    TagsFromDefined(fs, 0, staticTags, sprintV);
  }

  /**
   * What the tags loop builds: the static tags plus one tag per marked
   * field, named by TagName and holding the rendered value of the last
   * field with that name.
   */
  lemma {:induction false} TagsFromContents(fs: seq<Field>, i: nat, acc: map<string, string>, sprintV: Value -> string)
    requires i <= |fs|
    requires TagsFrom(fs, i, acc, sprintV).Ok?
    ensures forall k :: k in TagsFrom(fs, i, acc, sprintV).value <==> k in acc || TagNamedIn(fs, i, k)
    ensures forall k :: k in acc && !TagNamedIn(fs, i, k) ==> TagsFrom(fs, i, acc, sprintV).value[k] == acc[k]
    ensures forall j :: i <= j < |fs| && IsTagKey(fs[j].key) && IsLastWithKey(fs, j) ==>
      FieldValueAsInterface(fs[j]).Ok? && TagName(fs[j].key) in TagsFrom(fs, i, acc, sprintV).value &&
      TagsFrom(fs, i, acc, sprintV).value[TagName(fs[j].key)] == sprintV(FieldValueAsInterface(fs[j]).value)
    decreases |fs| - i
  {
    if i < |fs| {
      var key := fs[i].key;
      if IsTagKey(key) {
        var tag := TagName(key);
        TagNameNeverEmpty(key);
        var v := FieldValueAsInterface(fs[i]).value;
        var acc' := acc[tag := sprintV(v)];
        TagsFromContents(fs, i + 1, acc', sprintV);
        var m := TagsFrom(fs, i, acc, sprintV).value;
        assert m == TagsFrom(fs, i + 1, acc', sprintV).value;
        forall k ensures k in m <==> k in acc || TagNamedIn(fs, i, k) {
          if TagNamedIn(fs, i, k) && !TagNamedIn(fs, i + 1, k) {
            assert k == tag;
          }
          if k == tag {
            assert TagNamedIn(fs, i, k);
          }
        }
        assert TagNamedIn(fs, i, tag) by { assert fs[i].key == key; }
        forall k | TagNamedIn(fs, i + 1, k) ensures TagNamedIn(fs, i, k) {
          var j :| i + 1 <= j < |fs| && IsTagKey(fs[j].key) && TagName(fs[j].key) == k;
          assert i <= j;
        }
        forall j | i <= j < |fs| && IsTagKey(fs[j].key) && IsLastWithKey(fs, j)
          ensures FieldValueAsInterface(fs[j]).Ok? && TagName(fs[j].key) in m
            && m[TagName(fs[j].key)] == sprintV(FieldValueAsInterface(fs[j]).value)
        {
          if j == i {
            assert !TagNamedIn(fs, i + 1, tag) by {
              if TagNamedIn(fs, i + 1, tag) {
                var l :| i + 1 <= l < |fs| && IsTagKey(fs[l].key) && TagName(fs[l].key) == tag;
                TagNameInjective(fs[l].key, key);
              }
            }
          }
        }
      } else {
        TagsFromContents(fs, i + 1, acc, sprintV);
        forall k ensures TagNamedIn(fs, i, k) <==> TagNamedIn(fs, i + 1, k) {
          if TagNamedIn(fs, i, k) {
            var j :| i <= j < |fs| && IsTagKey(fs[j].key) && TagName(fs[j].key) == k;
            assert j != i;
          }
        }
      }
    }
  }

  /** Two marked keys with the same tag name are the same key. */
  lemma TagNameInjective(a: string, b: string)
    requires IsTagKey(a) && IsTagKey(b) && TagName(a) == TagName(b)
    ensures a == b
  {
    assert a[..4] == PrefixTagZapField[..4] == b[..4];
    assert a == a[..4] + a[4..];
    assert b == b[..4] + b[4..];
  }

  /** Tags of a field list: the static tags, overridden by the rendered value of the last marked field of each name. */
  lemma TagsContents(staticTags: map<string, string>, fs: seq<Field>, sprintV: Value -> string)
    requires TagsOf(staticTags, fs, sprintV).Ok?
    ensures forall k :: k in TagsOf(staticTags, fs, sprintV).value <==>
      k in staticTags || exists j :: 0 <= j < |fs| && IsTagKey(fs[j].key) && TagName(fs[j].key) == k
    ensures forall k :: k in staticTags && !TagNamedIn(fs, 0, k) ==> TagsOf(staticTags, fs, sprintV).value[k] == staticTags[k]
    ensures forall j :: 0 <= j < |fs| && IsTagKey(fs[j].key) && IsLastWithKey(fs, j) ==>
      FieldValueAsInterface(fs[j]).Ok? && TagName(fs[j].key) in TagsOf(staticTags, fs, sprintV).value
      && TagsOf(staticTags, fs, sprintV).value[TagName(fs[j].key)] == sprintV(FieldValueAsInterface(fs[j]).value)
  {
    TagsFromContents(fs, 0, staticTags, sprintV);
  }

  /** Scope building never looks at the call-site fields. */
  lemma ScopeIgnoresCallSiteFields(level: Level, coreFields: seq<Field>, coreTags: map<string, string>,
                                   a: seq<Field>, b: seq<Field>, sprintV: Value -> string)
    ensures ScopeFor(level, coreFields, coreTags, a, sprintV) == ScopeFor(level, coreFields, coreTags, b, sprintV)
  {
    ScopeFieldsAreCoreFields(a, coreFields);
    ScopeFieldsAreCoreFields(b, coreFields);
  }

  /**
   * For a named level, scope building fails exactly when a core field that
   * passes the extras filter cannot be decoded; otherwise the scope has the
   * mapped level and the extras and tags of the core's own fields.
   */
  lemma ScopeShape(level: Level, coreFields: seq<Field>, coreTags: map<string, string>,
                   callSite: seq<Field>, sprintV: Value -> string)
    requires IsNamedLevel(level)
    ensures ScopeFor(level, coreFields, coreTags, callSite, sprintV).Err? <==>
      exists j :: 0 <= j < |coreFields| && DecodeFailsAt(coreFields, j)
    ensures ScopeFor(level, coreFields, coreTags, callSite, sprintV).Ok? ==>
      var s := ScopeFor(level, coreFields, coreTags, callSite, sprintV).value;
      Ok(s.level) == LevelToSentryLevel(level) && Ok(s.extras) == ExtrasOf(coreFields)
      && Ok(s.tags) == TagsOf(coreTags, coreFields, sprintV)
  {
    ScopeFieldsAreCoreFields(callSite, coreFields);
    ExtrasFromFailure(coreFields, 0, map[]);
    if ExtrasOf(coreFields).Ok? {
      TagsNeverFailAfterExtras(coreFields, coreTags, sprintV);
    }
  }

  // ---------------------------------------------------------------------
  // The error a report is about

  /** findField: the first field with the given key. */
  function FindField(name: string, fields: seq<Field>): (r: Option<Field>)
  {
    if fields == [] then None
    else if fields[0].key == name then Some(fields[0])
    else FindField(name, fields[1..])
  }

  lemma {:induction false} FindFieldFirst(name: string, fields: seq<Field>)
    ensures FindField(name, fields).None? <==> forall i :: 0 <= i < |fields| ==> fields[i].key != name
    ensures FindField(name, fields).Some? ==> exists i ::
      (0 <= i < |fields| && fields[i] == FindField(name, fields).value
       && fields[i].key == name && forall l :: 0 <= l < i ==> fields[l].key != name)
  {
    if fields != [] && fields[0].key != name {
      FindFieldFirst(name, fields[1..]);
      if FindField(name, fields).Some? {
        var i :| 0 <= i < |fields[1..]| && fields[1..][i] == FindField(name, fields[1..]).value
          && fields[1..][i].key == name && forall l :: 0 <= l < i ==> fields[1..][l].key != name;
        assert fields[i + 1] == FindField(name, fields).value;
        forall l | 0 <= l < i + 1 ensures fields[l].key != name {
          if l > 0 { assert fields[l] == fields[1..][l - 1]; }
        }
      }
    } else if fields != [] {
      assert fields[0] == FindField(name, fields).value;
    }
  }

  /** getErrorFromFields, over the call-site fields; a non-error Interface in an ErrorType field panics. */
  function ErrorFromFields(message: string, fields: seq<Field>): Result<GoError> {
    match FindField(ErrorFieldName, fields)
    case Some(f) =>
      if f.ftype == ErrorType then
        (if f.iface.ErrorObject? then Ok(f.iface.err) else Err(WrongType(ErrorType)))
      else Ok(PlainError(message))
    case None => Ok(PlainError(message))
  }

  /**
   * The reported error is the one of the FIRST "_error" field when that
   * field has ErrorType; a later "_error" field is never consulted, and in
   * every other case the error is built from the message.
   */
  lemma ErrorFromFieldsChoice(message: string, fields: seq<Field>)
    ensures (forall i :: 0 <= i < |fields| ==> fields[i].key != ErrorFieldName) ==>
      ErrorFromFields(message, fields) == Ok(PlainError(message))
    ensures forall i ::
      (0 <= i < |fields| && fields[i].key == ErrorFieldName
       && (forall l :: 0 <= l < i ==> fields[l].key != ErrorFieldName)) ==>
        ErrorFromFields(message, fields) ==
          (if fields[i].ftype != ErrorType then Ok(PlainError(message))
           else if fields[i].iface.ErrorObject? then Ok(fields[i].iface.err)
           else Err(WrongType(ErrorType)))
  {
    FindFieldFirst(ErrorFieldName, fields);
    forall i | 0 <= i < |fields| && fields[i].key == ErrorFieldName
      && (forall l :: 0 <= l < i ==> fields[l].key != ErrorFieldName)
      ensures FindField(ErrorFieldName, fields) == Some(fields[i])
    {
      var j :| 0 <= j < |fields| && fields[j] == FindField(ErrorFieldName, fields).value
        && fields[j].key == ErrorFieldName && forall l :: 0 <= l < j ==> fields[l].key != ErrorFieldName;
      assert j == i;
    }
  }

  // ---------------------------------------------------------------------
  // Dispatch

  /** What one Write does: its outcome and the client calls it makes, in order. */
  datatype Dispatch = Dispatch(outcome: Outcome, calls: seq<Call>)

  /** Write: build the scope, then route on the entry's level. */
  function WriteSpec(entry: Entry, callSite: seq<Field>, coreFields: seq<Field>,
                     coreTags: map<string, string>, sprintV: Value -> string): Dispatch
  {
    match ScopeFor(entry.level, coreFields, coreTags, callSite, sprintV)
    case Err(f) => Dispatch(Failed(f), [])
    case Ok(scope) =>
      if entry.level == ErrorLevel then
        match ErrorFromFields(entry.message, callSite)
        case Err(f) => Dispatch(Failed(f), [])
        case Ok(err) =>
          if err.PanicWrapper? then
            Dispatch(Done, [RecoverCall(err, RecoveredHint(err), scope.(level := LevelFatal))])
          else
            Dispatch(Done, [CaptureExceptionCall(err, ExceptionHint(entry.message, err), scope)])
      else if entry.level == PanicLevel || entry.level == DPanicLevel then
        match ErrorFromFields(entry.message, callSite)
        case Err(f) => Dispatch(Failed(f), [])
        case Ok(err) => Dispatch(Done, [RecoverCall(err, RecoveredHint(err), scope)])
      else if entry.level == InfoLevel || entry.level == WarnLevel || entry.level == DebugLevel then
        Dispatch(Done, [CaptureMessageCall(entry.message, NoHint, scope)])
      else
        Dispatch(Failed(UnknownLevel(entry.level)), [])
  }

  /** A Write makes one client call when it completes and none when it fails. */
  lemma WriteCallsAtMostOnce(entry: Entry, callSite: seq<Field>, coreFields: seq<Field>,
                             coreTags: map<string, string>, sprintV: Value -> string)
    ensures var d := WriteSpec(entry, callSite, coreFields, coreTags, sprintV);
      (d.outcome == Done <==> |d.calls| == 1) && (d.outcome != Done <==> d.calls == [])
  {
  }

  /** Debug, Info and Warn entries are sent as messages, with the entry's message and the mapped level. */
  lemma WriteLowSeverityCapturesMessage(entry: Entry, callSite: seq<Field>, coreFields: seq<Field>,
                                        coreTags: map<string, string>, sprintV: Value -> string)
    requires entry.level in {DebugLevel, InfoLevel, WarnLevel}
    requires ScopeFor(entry.level, coreFields, coreTags, callSite, sprintV).Ok?
    ensures var scope := ScopeFor(entry.level, coreFields, coreTags, callSite, sprintV).value;
      WriteSpec(entry, callSite, coreFields, coreTags, sprintV) == Dispatch(Done, [CaptureMessageCall(entry.message, NoHint, scope)])
      && scope.level == (if entry.level == DebugLevel then LevelDebug
                         else if entry.level == InfoLevel then LevelInfo else LevelWarning)
  {
  }

  /** An Error entry about an ordinary error is captured as an exception at level error. */
  lemma WriteErrorCapturesException(entry: Entry, callSite: seq<Field>, coreFields: seq<Field>,
                                    coreTags: map<string, string>, sprintV: Value -> string, err: GoError)
    requires entry.level == ErrorLevel
    requires ScopeFor(entry.level, coreFields, coreTags, callSite, sprintV).Ok?
    requires ErrorFromFields(entry.message, callSite) == Ok(err) && !err.PanicWrapper?
    ensures var scope := ScopeFor(entry.level, coreFields, coreTags, callSite, sprintV).value;
      WriteSpec(entry, callSite, coreFields, coreTags, sprintV)
        == Dispatch(Done, [CaptureExceptionCall(err, ExceptionHint(entry.message, err), scope)])
      && scope.level == LevelError
  {
  }

  /** An Error entry about a *PanicWrapper is sent to Recover with the scope raised to fatal. */
  lemma WriteErrorRecoversPanicWrapper(entry: Entry, callSite: seq<Field>, coreFields: seq<Field>,
                                       coreTags: map<string, string>, sprintV: Value -> string, err: GoError)
    requires entry.level == ErrorLevel
    requires ScopeFor(entry.level, coreFields, coreTags, callSite, sprintV).Ok?
    requires ErrorFromFields(entry.message, callSite) == Ok(err) && err.PanicWrapper?
    ensures var scope := ScopeFor(entry.level, coreFields, coreTags, callSite, sprintV).value;
      WriteSpec(entry, callSite, coreFields, coreTags, sprintV)
        == Dispatch(Done, [RecoverCall(err, RecoveredHint(err), scope.(level := LevelFatal))])
  {
  }

  /** Panic and DPanic entries always go to Recover, at level fatal. */
  lemma WritePanicLevelsRecover(entry: Entry, callSite: seq<Field>, coreFields: seq<Field>,
                                coreTags: map<string, string>, sprintV: Value -> string, err: GoError)
    requires entry.level in {PanicLevel, DPanicLevel}
    requires ScopeFor(entry.level, coreFields, coreTags, callSite, sprintV).Ok?
    requires ErrorFromFields(entry.message, callSite) == Ok(err)
    ensures var scope := ScopeFor(entry.level, coreFields, coreTags, callSite, sprintV).value;
      WriteSpec(entry, callSite, coreFields, coreTags, sprintV) == Dispatch(Done, [RecoverCall(err, RecoveredHint(err), scope)])
      && scope.level == LevelFatal
  {
  }

  /** A Fatal entry is never reported: Write returns the "unknown level" error, or the scope's failure. */
  lemma WriteFatalIsRejected(entry: Entry, callSite: seq<Field>, coreFields: seq<Field>,
                             coreTags: map<string, string>, sprintV: Value -> string)
    requires entry.level == FatalLevel
    ensures var d := WriteSpec(entry, callSite, coreFields, coreTags, sprintV);
      d.calls == [] && d.outcome.Failed?
      && (ScopeFor(entry.level, coreFields, coreTags, callSite, sprintV).Ok? ==> d.outcome == Failed(UnknownLevel(FatalLevel)))
  {
  }

  /** When scope building fails, Write returns that failure and calls nothing. */
  lemma WriteScopeFailureMakesNoCall(entry: Entry, callSite: seq<Field>, coreFields: seq<Field>,
                                     coreTags: map<string, string>, sprintV: Value -> string)
    requires ScopeFor(entry.level, coreFields, coreTags, callSite, sprintV).Err?
    ensures WriteSpec(entry, callSite, coreFields, coreTags, sprintV)
      == Dispatch(Failed(ScopeFor(entry.level, coreFields, coreTags, callSite, sprintV).failure), [])
  {
  }

  /**
   * A worked example: a core derived with AddField("user_id", "42") writes an Error entry carrying an "_error"
   * field; the report is one exception capture of that error with
   * extras {user_id: "42"} and the static tags only.
   */
  lemma UserIdScenario(staticTags: map<string, string>, sprintV: Value -> string, someErr: GoError)
    requires !someErr.PanicWrapper?
    ensures var core := [ZapString("user_id", "42")];
      var callSite := [ZapNamedError(ErrorFieldName, Some(someErr))];
      var scope := Scope(LevelError, staticTags, map["user_id" := StringValue("42")]);
      WriteSpec(Entry(ErrorLevel, "db failed"), callSite, core, staticTags, sprintV)
        == Dispatch(Done, [CaptureExceptionCall(someErr, ExceptionHint("db failed", someErr), scope)])
  {
    var core := [ZapString("user_id", "42")];
    ScopeFieldsAreCoreFields([ZapNamedError(ErrorFieldName, Some(someErr))], core);
    assert IsExtraKey("user_id") by {
      assert !HasPrefix("user_id", "_") by { assert "user_id"[..1][0] == 'u'; }
      assert !HasPrefix("user_id", ZapFieldPrefix);
    }
    assert !IsTagKey("user_id");
  }

  /**
   * Keys as the code treats them: "_debugOnly" is neither an extra nor a tag;
   * a key marked for tagging gives the tag "ixTagZapField" + name (the
   * marker minus four bytes) and stays an extra; "zapfield_prefix..." keys
   * are dropped; "Error" in any case is dropped.
   */
  lemma KeyClassificationExamples()
    ensures !IsExtraKey("_debugOnly") && !IsTagKey("_debugOnly")
    ensures IsTagKey("prefixTagZapFieldregion") && IsExtraKey("prefixTagZapFieldregion")
    ensures TagName("prefixTagZapFieldregion") == "ixTagZapFieldregion"
    ensures !IsExtraKey("zapfield_prefixregion")
    ensures !IsExtraKey("ErRoR") && IsExtraKey("errors")
  {
    assert HasPrefix("_debugOnly", "_") by { assert "_debugOnly"[..1] == "_"; }
    assert !HasPrefix("_debugOnly", PrefixTagZapField);
    TagKeysAreExtraKeys("prefixTagZapFieldregion");
    assert "prefixTagZapFieldregion"[..|PrefixTagZapField|] == PrefixTagZapField;
    assert "zapfield_prefixregion"[..|ZapFieldPrefix|] == ZapFieldPrefix;
    assert LowerEquals("ErRoR", ErrorKeyName);
    assert !HasPrefix("errors", "_") by { assert "errors"[..1][0] == 'e'; }
  }
}
