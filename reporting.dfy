/**
 * The reporter: the lost-resource tracker, the error normaliser with its
 * occurrence cache, and the two entry points, explicit capture of a caught
 * exception and the global uncaught-error handler.
 *
 * The record is returned to the caller instead of being handed to the sink.
 * The caller frame of the normaliser and the call stack above it are passed
 * in, as is the host's language setting.
 */
module Reporting {
  import opened Wrappers
  import opened JsValues
  import opened StackTraces
  import opened LostResources
  import opened Occurrences

  /** The profile tag every record carries. */
  const PROFILE := "jserror"

  /** The arguments of `error(message, file, line, number, stack)`; one not passed is Undefined. */
  datatype Args = Args(message: Value, file: Value, line: Value, number: Value, stack: Value)

  /** The record handed to the sink; `uv` stands for the field `uv: 1`, present or absent. */
  datatype Report = Report(
    profile: string, msg: Value, file: Value, line: Value, num: Value,
    stack: Value, lang: Value, lost: string, uv: bool)

  /**
   * A value caught in a `try` block: whether it is an `Error` instance, and
   * the fields the capture reads from it (Undefined when absent).
   */
  datatype Thrown = Thrown(
    isError: bool, message: Value, description: Value, fileName: Value,
    lineNumber: Value, line: Value, number: Value, stack: Value, stacktrace: Value)

  /** The dedup key, from the raw arguments: an absent one reads "undefined". */
  function Key(a: Args): string
  {
    ToStr(a.file) + ":" + ToStr(a.line) + ":" + ToStr(a.message)
  }

  /** The arguments explicit capture passes on, preferring the first of each pair of fields. */
  function ErrorArgs(ex: Thrown): Args
  {
    Args(Or(ex.message, ex.description), ex.fileName, Or(ex.lineNumber, ex.line),
         ex.number, Or(ex.stack, ex.stacktrace))
  }

  /** The `stack` argument once the fallback has run: a synthetic trace when it is falsy and there is a caller. */
  function StackWithFallback<F(==)>(stack: Value, cs: CallStack<F>, caller: Option<F>): Value
  {
    if !Truthy(stack) && caller.Some? then Str(Trace(cs, caller.value)) else stack
  }

  /** The record built from the arguments, the stack, the language, the lost-resource log and the first-occurrence flag. */
  function Normalize(a: Args, stack: Value, lang: Value, lost: seq<string>, first: bool): Report
  {
    Report(PROFILE, Or(a.message, Str("")), Or(a.file, Str("")), Or(a.line, Num(0)),
           Or(a.number, Str("")), Or(stack, Str("")), lang, Join(lost, ","), first)
  }

  /** A value that stands in a record slot whose default is `default`: truthy, or the default itself. */
  predicate Defaulted(v: Value, default: Value)
  {
    Truthy(v) || v == default
  }

  /**
   * No missing value reaches the sink: every slot of the record holds a
   * truthy value or its empty default, and every truthy argument is carried
   * over unchanged.
   */
  lemma NormalizeFillsDefaults(a: Args, stack: Value, lang: Value, lost: seq<string>, first: bool)
    ensures var r := Normalize(a, stack, lang, lost, first);
      r.profile == PROFILE &&
      Defaulted(r.msg, Str("")) && Defaulted(r.file, Str("")) && Defaulted(r.line, Num(0)) &&
      Defaulted(r.num, Str("")) && Defaulted(r.stack, Str("")) &&
      (Truthy(a.message) <==> Truthy(r.msg)) && (Truthy(a.message) ==> r.msg == a.message) &&
      (Truthy(a.file) <==> Truthy(r.file)) && (Truthy(a.file) ==> r.file == a.file) &&
      (Truthy(a.line) <==> Truthy(r.line)) && (Truthy(a.line) ==> r.line == a.line) &&
      (Truthy(a.number) <==> Truthy(r.num)) && (Truthy(a.number) ==> r.num == a.number) &&
      (Truthy(stack) <==> Truthy(r.stack)) && (Truthy(stack) ==> r.stack == stack)
  {
  }

  /**
   * A truthy stack argument is used verbatim; the walk runs only when the
   * argument is falsy and there is a caller, and then the record's stack is
   * the synthetic trace.
   */
  lemma StackFallback<F>(stack: Value, cs: CallStack<F>, caller: Option<F>)
    ensures Truthy(stack) ==> StackWithFallback(stack, cs, caller) == stack
    ensures caller.None? ==> StackWithFallback(stack, cs, caller) == stack
    ensures !Truthy(stack) && caller.Some? ==>
      Or(StackWithFallback(stack, cs, caller), Str("")) == Str(Trace(cs, caller.value))
  {
  }

  /**
   * The key is built from the raw arguments, not the record: a report with
   * no message, file or line has the empty defaults in its record and the
   * word "undefined" in its key.
   */
  lemma KeyUsesRawArguments(lang: Value, lost: seq<string>, first: bool)
    ensures var a := Args(Undefined, Undefined, Undefined, Undefined, Undefined);
      var r := Normalize(a, Undefined, lang, lost, first);
      Key(a) == "undefined:undefined:undefined" &&
      r.msg == Str("") && r.file == Str("") && r.line == Num(0)
  {
  }

  /**
   * The key is not injective: two reports with different file, line and
   * message can share it, and then only the first of them is tagged.
   */
  lemma KeysCollide()
    ensures Key(Args(Str("x"), Str("a:1"), Num(2), Undefined, Undefined))
         == Key(Args(Str("2:x"), Str("a"), Num(1), Undefined, Undefined))
  {
  }

  class Reporter {
    /** The URIs of resources that failed to load, in the order first reported. */
    var lost: seq<string>
    /** The same URIs, for the membership test. */
    var lostSet: set<string>
    /** The dedup keys of the reports made so far. */
    var cache: set<string>
    /** The keys of the reports made so far, in order, repeats included. */
    ghost var keys: seq<string>
    /** The host's language setting and its legacy fallback. */
    const language: Value
    const browserLanguage: Value

    /**
     * The log holds each URI once, and exactly the URIs of the membership
     * set; the cache is what the session of reports so far has built.
     */
    ghost predicate Valid()
      reads this
    {
      NoDuplicates(lost) && lostSet == Elements(lost) && cache == CacheAfter({}, keys)
    }

    constructor (language: Value, browserLanguage: Value)
      ensures Valid()
      ensures lost == [] && lostSet == {} && cache == {} && keys == []
      ensures this.language == language && this.browserLanguage == browserLanguage
    {
      lost, lostSet, cache := [], {}, {};
      keys := [];
      this.language, this.browserLanguage := language, browserLanguage;
    }

    /** The `lang` field: the language, else the legacy field, else "". */
    function Lang(): Value
    {
      Or(Or(language, browserLanguage), Str(""))
    }

    /** Records that the resource at `uri` failed to load; a URI already recorded is ignored. */
    method Lost(uri: string)
      requires Valid()
      modifies this`lost, this`lostSet
      ensures Valid()
      ensures uri in old(lostSet) ==> lost == old(lost) && lostSet == old(lostSet)
      ensures uri !in old(lostSet) ==> lost == old(lost) + [uri] && lostSet == old(lostSet) + {uri}
      ensures lost == Track(old(lost), uri)
    {
      if uri in lostSet {
        return;
      }
      lostSet := lostSet + {uri};
      lost := lost + [uri];
    }

    /**
     * Builds the record for one error. `caller` is the frame that called the
     * normaliser, if any; the synthetic trace lists the frames above it.
     * The record is tagged exactly when its key is new, and the key is then
     * cached; the lost-resource log is only read.
     */
    method Error<F(==)>(a: Args, cs: CallStack<F>, caller: Option<F>) returns (r: Report)
      requires Valid()
      modifies this`cache, this`keys
      ensures Valid() && lost == old(lost) && lostSet == old(lostSet)
      ensures r == Normalize(a, StackWithFallback(a.stack, cs, caller), Lang(), lost, Key(a) !in old(cache))
      ensures cache == old(cache) + {Key(a)}
      ensures keys == old(keys) + [Key(a)] && r.uv == Tags({}, keys)[|keys| - 1]
    {
      var stack := a.stack;
      if !Truthy(stack) && caller.Some? {
        var trace := Stacktrace(cs, caller.value);
        stack := Str(trace);
      }
      r := Report(PROFILE, Or(a.message, Str("")), Or(a.file, Str("")), Or(a.line, Num(0)),
                  Or(a.number, Str("")), Or(stack, Str("")), Lang(), Join(lost, ","), false);
      var key := Key(a);
      SessionSnoc({}, keys, key);
      if key !in cache {
        r := r.(uv := true);
        cache := cache + {key};
      }
      keys := keys + [key];
    }

    /**
     * Explicit capture of a caught value `ex`, called from frame `self`.
     * A value that is not an `Error` is ignored with no effect; otherwise its
     * fields go to the normaliser.
     */
    method MonitorError<F(==)>(ex: Thrown, cs: CallStack<F>, self: F) returns (r: Option<Report>)
      requires Valid()
      modifies this`cache, this`keys
      ensures Valid() && lost == old(lost) && lostSet == old(lostSet)
      ensures !ex.isError ==> r == None && cache == old(cache) && keys == old(keys)
      ensures ex.isError ==>
        var a := ErrorArgs(ex);
        r == Some(Normalize(a, StackWithFallback(a.stack, cs, Some(self)), Lang(), lost, Key(a) !in old(cache))) &&
        cache == old(cache) + {Key(a)} && keys == old(keys) + [Key(a)]
    {
      if !ex.isError {
        return None;
      }
      var report := Error(ErrorArgs(ex), cs, Some(self));
      r := Some(report);
    }

    /**
     * The global uncaught-error handler, called from frame `self` with the
     * message, file and line the host supplies. It always reports and
     * always answers false, which lets the host also show the error.
     */
    method OnError<F(==)>(message: Value, file: Value, line: Value, cs: CallStack<F>, self: F)
      returns (handled: bool, r: Report)
      requires Valid()
      modifies this`cache, this`keys
      ensures Valid() && lost == old(lost) && lostSet == old(lostSet)
      ensures !handled
      ensures var a := Args(message, file, line, Undefined, Undefined);
        r == Normalize(a, StackWithFallback(Undefined, cs, Some(self)), Lang(), lost, Key(a) !in old(cache)) &&
        cache == old(cache) + {Key(a)} && keys == old(keys) + [Key(a)]
    {
      r := Error(Args(message, file, line, Undefined, Undefined), cs, Some(self));
      handled := false;
    }
  }

  /**
   * A whole session: a failed image load, then the same error reported
   * twice. Both records list the image; only the first is tagged.
   */
  method RepeatedErrorSession() returns (first: Report, second: Report)
    ensures first.lost == "img.png" && second.lost == "img.png"
    ensures first.msg == Str("fail") && first.file == Str("x.js") && first.line == Num(1)
    ensures first.uv && !second.uv
  {
    var reporter := new Reporter(Str("en-US"), Undefined);
    reporter.Lost("img.png");
    reporter.Lost("img.png");
    var cs: CallStack<nat> := CallStack(map[], f => "");
    var a := Args(Str("fail"), Str("x.js"), Num(1), Undefined, Undefined);
    first := reporter.Error(a, cs, None);
    second := reporter.Error(a, cs, None);
  }
}
