/**
 The external query compiler (package `zql`) as the conversion handler sees it:
 one compile step and three emission steps, each answering a value or an error
 text. Its grammar and its lowering to backend queries are not modelled; a
 `Compiler` is any total behaviour of these four operations.
 */
module Zql {
  import opened Wrappers

  /** The collaborator. `Q` stands for the opaque compiled query object. */
  datatype Compiler<!Q> = Compiler(
    compile: (string, string) -> Result<Q>,            // zql.New(prefix, zql)
    mongoQuery: (Q, string, string) -> Result<string>, // GetMongoQueryStr(database, collection)
    influxQuery: (Q, string) -> Result<string>,        // GetInfluxdbQuery(measurement)
    elasticQuery: Q -> Result<string>)                 // GetElasticQueryStr()

  /** One invocation of the collaborator, with the arguments it received. */
  datatype Call<Q> =
    | New(prefix: string, zql: string)
    | GetMongoQueryStr(query: Q, database: string, collection: string)
    | GetInfluxdbQuery(query: Q, measurement: string)
    | GetElasticQueryStr(query: Q)
  {
    /** An emission turns a compiled query into one backend's query text. */
    predicate IsEmission() { !New? }
  }

  /** What the collaborator answers to an emission call. */
  function Answer<Q>(c: Compiler<Q>, call: Call<Q>): Result<string>
    requires call.IsEmission()
  {
    match call
    case GetMongoQueryStr(q, database, collection) => c.mongoQuery(q, database, collection)
    case GetInfluxdbQuery(q, measurement) => c.influxQuery(q, measurement)
    case GetElasticQueryStr(q) => c.elasticQuery(q)
  }

  /** The error text the collaborator reports for `call`, if it reports one. */
  function ErrorOf<Q>(c: Compiler<Q>, call: Call<Q>): Option<string>
  {
    match call
    case New(prefix, zql) =>
      if c.compile(prefix, zql).Err? then Some(c.compile(prefix, zql).error) else None
    case _ =>
      if Answer(c, call).Err? then Some(Answer(c, call).error) else None
  }
}
