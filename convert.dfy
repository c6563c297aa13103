/**
 The `/convert` endpoint: validate `type` and `zql`, compile the query with
 the external compiler, hand the compiled query to the one emission `type`
 names, and fold every outcome into the reply envelope.
 */
module Convert {
  import opened Wrappers
  import opened Zql
  import opened Envelope

  const MsgTypeEmpty := "参数'type'不能为空"
  const MsgZqlEmpty := "参数'zql'不能为空"
  const MsgConverted := "zql转换成功"
  const MsgTypeUnknown := "参数'type'无法识别，请检查是否错误"

  /** The messages the handler writes itself (the placeholder is not among them). */
  const HandlerMessages: set<string> := {MsgTypeEmpty, MsgZqlEmpty, MsgConverted, MsgTypeUnknown}

  /** The target types the dispatcher recognises. */
  const Backends: set<string> := {"mongodb", "influxdb", "elasticsearch"}

  /** The database name of the Mongo handle given to the Mongo emission. */
  const MongoDatabase := "dbname"

  /**
   Dispatch table: the one emission call a recognised target type makes,
   with the arguments the handler fixes for it.
   */
  function EmissionFor<Q>(cType: string, q: Q): (call: Call<Q>)
    requires cType in Backends
    ensures call.IsEmission() && call.query == q
  {
    if cType == "mongodb" then GetMongoQueryStr(q, MongoDatabase, "")
    else if cType == "influxdb" then GetInfluxdbQuery(q, "")
    else GetElasticQueryStr(q)
  }

  /** The envelope of a failed request: state "1", the message, no data. */
  function Failure(msg: string): Reply { Reply("1", msg, None) }

  /** The envelope of a converted query: state "0", the success message, the query text. */
  function Success(text: string): Reply { Reply("0", MsgConverted, Some(text)) }

  /** What one request produces: the envelope and the calls made to the compiler. */
  datatype Exchange<Q> = Exchange(reply: Reply, calls: seq<Call<Q>>)

  /**
   The outcome of one request, stated as a decision table: validation, then
   compilation, then dispatch, each stage either ending the request with a
   failure envelope or handing on to the next.
   */
  function Respond<Q>(zql: Compiler<Q>, cType: string, zqlStr: string, prefix: string): Exchange<Q>
  {
    if cType == "" then Exchange(Failure(MsgTypeEmpty), [])
    else if zqlStr == "" then Exchange(Failure(MsgZqlEmpty), [])
    else
      var compile := New(prefix, zqlStr);
      match zql.compile(prefix, zqlStr)
      case Err(error) => Exchange(Failure(error), [compile])
      case Ok(q) =>
        if cType !in Backends then Exchange(Failure(MsgTypeUnknown), [compile])
        else
          var emission := EmissionFor(cType, q);
          match Answer(zql, emission)
          case Ok(text) => Exchange(Success(text), [compile, emission])
          case Err(error) => Exchange(Failure(error), [compile, emission])
  }

  /**
   The handler for one request. `cType`, `zqlStr` and `prefix` are the query
   parameters `type`, `zql` and `prefix` ("" when absent). `zql` is the
   compiler; `calls` logs, in order, every call made to it. `reply` holds the
   envelope's fields when it is serialised. The envelope passes through
   states that are not well formed (state "0" before any data is set), but
   what it holds at the end is what `Respond` prescribes.
   */
  method AjaxConvert<Q>(zql: Compiler<Q>, cType: string, zqlStr: string, prefix: string)
    returns (reply: Reply, calls: seq<Call<Q>>)
    ensures WellFormed(reply)
    ensures reply == Respond(zql, cType, zqlStr, prefix).reply
    ensures calls == Respond(zql, cType, zqlStr, prefix).calls
  {
    calls := [];
    var data := new Data();
    if cType == "" {
      data.msg := MsgTypeEmpty;
    } else if zqlStr == "" {
      data.msg := MsgZqlEmpty;
    } else {
      var call := New(prefix, zqlStr);
      calls := calls + [call];
      var compiled := zql.compile(call.prefix, call.zql);
      if compiled.Err? {
        data.msg := compiled.error;
      } else {
        var zqlObj := compiled.value;
        data.state := "0";
        data.msg := MsgConverted;
        match cType {
          case "mongodb" =>
            var emission := GetMongoQueryStr(zqlObj, MongoDatabase, "");
            calls := calls + [emission];
            var mgoStr := Answer(zql, emission);
            if mgoStr.Err? {
              data.state := "1";
              data.msg := mgoStr.error;
            } else {
              data.data := Some(mgoStr.value);
            }
          case "influxdb" =>
            var emission := GetInfluxdbQuery(zqlObj, "");
            calls := calls + [emission];
            var infStr := Answer(zql, emission);
            if infStr.Err? {
              data.state := "1";
              data.msg := infStr.error;
            } else {
              data.data := Some(infStr.value);
            }
          case "elasticsearch" =>
            var emission := GetElasticQueryStr(zqlObj);
            calls := calls + [emission];
            var esStr := Answer(zql, emission);
            if esStr.Err? {
              data.state := "1";
              data.msg := esStr.error;
            } else {
              data.data := Some(esStr.value);
            }
          case _ =>
            data.state := "1";
            data.msg := MsgTypeUnknown;
        }
      }
    }
    reply := Reply(data.state, data.msg, data.data);
  }

  /** The envelope invariant: state is "0" or "1", and "0" exactly when data is set. */
  lemma EnvelopeInvariant<Q>(zql: Compiler<Q>, cType: string, zqlStr: string, prefix: string)
    ensures WellFormed(Respond(zql, cType, zqlStr, prefix).reply)
  {
  }

  /** An empty `type` is reported before anything else, and the compiler is not called. */
  lemma TypeCheckedFirst<Q>(zql: Compiler<Q>, zqlStr: string, prefix: string)
    ensures Respond(zql, "", zqlStr, prefix) == Exchange(Reply("1", MsgTypeEmpty, None), [])
  {
  }

  /** An empty `zql` with a `type` present is reported, and the compiler is not called. */
  lemma ZqlChecked<Q>(zql: Compiler<Q>, cType: string, prefix: string)
    requires cType != ""
    ensures Respond(zql, cType, "", prefix) == Exchange(Reply("1", MsgZqlEmpty, None), [])
  {
  }

  /**
   The compiler is called exactly when both `type` and `zql` are present; it is
   the first call, and it receives `prefix` as given.
   */
  lemma CompileOnlyWhenValid<Q>(zql: Compiler<Q>, cType: string, zqlStr: string, prefix: string)
    ensures var calls := Respond(zql, cType, zqlStr, prefix).calls;
            && (calls != [] <==> cType != "" && zqlStr != "")
            && (calls != [] ==> calls[0] == New(prefix, zqlStr))
  {
  }

  /** A compile error becomes the message verbatim, and nothing is emitted. */
  lemma CompileErrorReported<Q>(zql: Compiler<Q>, cType: string, zqlStr: string, prefix: string)
    requires cType != "" && zqlStr != "" && zql.compile(prefix, zqlStr).Err?
    ensures Respond(zql, cType, zqlStr, prefix)
            == Exchange(Reply("1", zql.compile(prefix, zqlStr).error, None), [New(prefix, zqlStr)])
  {
  }

  /** An unrecognised type is reported after a successful compile, with no emission. */
  lemma UnknownTypeReported<Q>(zql: Compiler<Q>, cType: string, zqlStr: string, prefix: string)
    requires cType != "" && cType !in Backends && zqlStr != "" && zql.compile(prefix, zqlStr).Ok?
    ensures Respond(zql, cType, zqlStr, prefix)
            == Exchange(Reply("1", MsgTypeUnknown, None), [New(prefix, zqlStr)])
  {
  }

  /**
   A recognised type after a successful compile makes its own emission once:
   its text becomes the data of a success envelope, its error the message of
   a failure envelope.
   */
  lemma RecognisedTypeEmits<Q>(zql: Compiler<Q>, cType: string, zqlStr: string, prefix: string)
    requires cType in Backends && zqlStr != "" && zql.compile(prefix, zqlStr).Ok?
    ensures var q := zql.compile(prefix, zqlStr).value;
            var emission := EmissionFor(cType, q);
            var r := Respond(zql, cType, zqlStr, prefix);
            && r.calls == [New(prefix, zqlStr), emission]
            && (cType == "mongodb" ==> emission == GetMongoQueryStr(q, "dbname", ""))
            && (cType == "influxdb" ==> emission == GetInfluxdbQuery(q, ""))
            && (cType == "elasticsearch" ==> emission == GetElasticQueryStr(q))
            && match Answer(zql, emission)
               case Ok(text) => r.reply == Reply("0", "zql转换成功", Some(text))
               case Err(error) => r.reply == Reply("1", error, None)
  {
  }

  /**
   At most one emission is made, always right after the compile, and one is
   made exactly when the query compiled and the type is recognised.
   */
  lemma AtMostOneEmission<Q>(zql: Compiler<Q>, cType: string, zqlStr: string, prefix: string)
    ensures var calls := Respond(zql, cType, zqlStr, prefix).calls;
            && |calls| <= 2
            && (forall i :: 0 <= i < |calls| ==> (calls[i].IsEmission() <==> i == 1))
            && (|calls| == 2 <==> cType in Backends && zqlStr != "" && zql.compile(prefix, zqlStr).Ok?)
  {
  }

  /**
   The emissions' fixed arguments: the Mongo emission gets database "dbname"
   and no collection override, the Influx emission no measurement override,
   and each emission is the one its type names.
   */
  lemma FixedArguments<Q>(zql: Compiler<Q>, cType: string, zqlStr: string, prefix: string)
    ensures var calls := Respond(zql, cType, zqlStr, prefix).calls;
            forall call :: call in calls ==>
              && (call.GetMongoQueryStr? ==> call.database == "dbname" && call.collection == "" && cType == "mongodb")
              && (call.GetInfluxdbQuery? ==> call.measurement == "" && cType == "influxdb")
              && (call.GetElasticQueryStr? ==> cType == "elasticsearch")
  {
  }

  /**
   The placeholder message never survives: the message is one of the
   handler's own texts, or the error text the last call reported.
   */
  lemma PlaceholderOverwritten<Q>(zql: Compiler<Q>, cType: string, zqlStr: string, prefix: string)
    ensures var r := Respond(zql, cType, zqlStr, prefix);
            || r.reply.msg in HandlerMessages
            || (r.calls != [] && ErrorOf(zql, r.calls[|r.calls| - 1]) == Some(r.reply.msg))
  {
  }
}
