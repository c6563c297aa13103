# zql-convert: the conversion gateway, modelled in Dafny

zql-convert is a small HTTP service. Its `/convert` endpoint takes a target
type (`mongodb`, `influxdb` or `elasticsearch`), a generic `zql` filter query
and an optional table `prefix`. It compiles the query with the external `zql`
library, asks the compiled query for the one backend dialect the type names,
and answers with a JSON envelope `{state, msg, data}`: `"0"` with the backend
query as `data`, or `"1"` with an error message and `data` null.

This project models that handler, `AjaxConvert`, together with the
start-up logic that chooses the static directory and composes the listen
address.

- `wrappers.dfy`, module `Wrappers`: `Option`, and `Result` for Go's `(value, err)` pairs.
- `zql.dfy`, module `Zql`: the compiler as an abstract collaborator. It has one
  compile operation and three emission operations, each answering a value or an
  error text. `Call` records each invocation with its arguments, so the model
  can state which calls were made.
- `envelope.dfy`, module `Envelope`: the `Data` record, a class whose fields the
  handler overwrites step by step, and `Reply`, its final field values.
- `convert.dfy`, module `Convert`: the handler. `Respond` states the outcome of a
  request as a decision table over validation, compilation and dispatch.
  `AjaxConvert` allocates a `Data`, mutates it along the same branches as the Go
  code, and is proved to end where `Respond` says. The lemmas state the
  handler's promises about `Respond` for all inputs and all compiler behaviours.
- `server.dfy`, module `Server`: `main`'s static-path choice and `StartHTTP`'s
  defaulting and address composition. `SplitHostPort` splits an address at its
  last colon; it serves as the reference inverse of the composition.

Query parameters absent from the request read as `""`, as `Query().Get` returns
them. The compiled query is a type parameter `Q`, so the handler cannot look
inside it.

## Model

| member | source | states |
|---|---|---|
| `Envelope.Data.constructor` | main.go:80 | A new envelope starts in state "1" with the placeholder message "服务端错误" and no data. |
| `Convert.AjaxConvert` | main.go:74-131 | The handler overwrites the envelope's fields step by step. Its final envelope and its log of compiler calls are exactly what the decision table `Respond` prescribes, and the envelope is well formed. |
| `Convert.EmissionFor` | main.go:96-124 | Each recognised type maps to exactly one emission call, and that call is on the compiled query. |
| `Convert.EnvelopeInvariant` | main.go:80-128 | On every path the state is "0" or "1", and it is "0" exactly when data is set. |
| `Convert.TypeCheckedFirst` | main.go:82-83 | An empty `type` gives state "1", "参数'type'不能为空" and no data, whatever `zql` is. No compiler call is made. |
| `Convert.ZqlChecked` | main.go:84-85 | A present `type` with an empty `zql` gives state "1", "参数'zql'不能为空" and no data. No compiler call is made. |
| `Convert.CompileOnlyWhenValid` | main.go:82-90 | The compiler is called exactly when both `type` and `zql` are non-empty. It is the first call, and it receives `prefix` as given, "" included. |
| `Convert.CompileErrorReported` | main.go:90-92 | A compile error gives state "1", the error text verbatim and no data. The compile is the only call made. |
| `Convert.UnknownTypeReported` | main.go:125-127 | A type other than the three known ones, after a successful compile, gives state "1", "参数'type'无法识别，请检查是否错误" and no data. No emission is made. |
| `Convert.RecognisedTypeEmits` | main.go:94-124 | A known type, after a successful compile, makes its own emission once. "mongodb" calls the Mongo emission with "dbname" and "", "influxdb" calls the Influx emission with "", and "elasticsearch" calls the Elastic emission. On success the reply is state "0", "zql转换成功" and the emitted text as data. On failure it is state "1", the error text verbatim and no data. |
| `Convert.AtMostOneEmission` | main.go:90-129 | At most one emission is made, always as the call after the compile. One is made exactly when the query compiled and the type is known. |
| `Convert.FixedArguments` | main.go:96-117 | Every Mongo emission gets database "dbname" and collection "". Every Influx emission gets measurement "". Each emission made is the one the request's type names. |
| `Convert.PlaceholderOverwritten` | main.go:80-128 | The final message is one of the handler's own four texts, or the error text the last compiler call reported. So the placeholder "服务端错误" never survives on its own. |
| `Server.StaticPath` | main.go:37-40 | The static directory is the `-d` value when that is non-empty, and otherwise the program's directory followed by "/view/". Either way it is non-empty. |
| `Server.StartHTTP` | main.go:46-58 | An empty address, port or static path becomes "0.0.0.0", "80" or "./". Non-empty values are kept. The listen address is address, ":", port. When the port has no colon, splitting the listen address at its last colon gives back the effective address and port. |
| `Server.Start` | main.go:36-42 | Starting through `main` serves the `-d` directory, or otherwise the program's "/view/" directory, so `StartHTTP`'s "./" fallback is never used. The listen address is the defaulted address, ":", and the defaulted port. When the port has no colon, it splits back into that address and port. |
| `Server.LastIndex` | main.go:58 | Finds the position of the last occurrence of a character. It returns none exactly when the character is absent. |
| `Server.SplitHostPort` | main.go:58 | Splitting at the last colon gives a host and a colon-free port whose composition is the address. It fails exactly when the address has no colon. |
| `Server.SplitJoin` | main.go:58 | A host and a colon-free port, composed as `StartHTTP` composes them, split back into that same host and port, whatever colons the host contains. |

## Left out

- JSON serialisation and the logging of a serialisation failure (main.go:133-138) are left out. `Reply` holds the values that would be serialised, and writing the body is I/O.
- HTTP plumbing is left out: route registration, the file server, `ListenAndServe` and its failure exit, and query-string parsing. The three parameters and the listen address stand in for them.
- Flag parsing, `-h`/`os.Exit`, and `GetRootDir`'s filesystem lookup (main.go:24-35, 142-149) are left out. The flag values and the program's directory are inputs.
- The flag defaults are left out with flag parsing. `-d` defaults to "./" (main.go:26), so by default `main` serves the working directory. The `/view/` branch of `StaticPath` runs only when `-d ""` is given explicitly. `-p` and `-a` default to "80" and "0.0.0.0" (main.go:27-28).
- `StartHTTP`'s log lines (main.go:64, 67, 70) are left out, as are all other logging.
- The `mgo` session and database handle (main.go:98) are foreign library objects. Only the database name "dbname" is kept, as an argument recorded in the call log.
- The zql library's grammar, parsing and backend lowering are external. A `Compiler` is any behaviour of its four operations.
- Go returns a string and an error from each emission. The model keeps the string when the error is nil, and the error text otherwise. A string returned next to a non-nil error is dropped; the handler never reads it (main.go:100-105).
- `Convert.AjaxConvert`: the call log is written by the handler itself. It logs each `Call` value and then evaluates that same value, so the logged arguments are the ones the compiler receives. That no unlogged call is made rests on the body containing none, and no contract states it.
- Concurrent requests are left out. The handler shares no state, and each call allocates its own envelope.
- `SplitHostPort` splits at the last colon. It is a reference inverse, not Go's `net.SplitHostPort`, which also rejects unbracketed hosts that contain colons.
