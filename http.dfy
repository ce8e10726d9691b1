/**
 * The interface of the HTTP transport that the client delegates to.
 * The transport itself (TLS, form encoding, JSON parsing) is not modelled:
 * it is a function from the request that would be sent to the parsed reply.
 */
module Http {
  import opened Wrappers

  /** The uploaded file, opaque to the client. */
  type File = seq<bv8>

  /**
   * A parsed JSON envelope `{status, data}`. `data` is absent when the reply has
   * no "data" member (indexing it then raises in Ruby); only its string-valued
   * members are modelled.
   */
  datatype Response = Response(status: string, data: Option<map<string, string>>)

  /** A url-encoded form, in the order of the Ruby hash literal; a `nil` value stays `None`. */
  type Form = seq<(string, Option<string>)>

  /** One `[name, value]` pair of a multipart body. */
  datatype PartValue = FileValue(file: File) | Text(text: Option<string>)
  datatype Part = Part(name: string, value: PartValue)

  /** The requests the client can issue, one per helper of the transport. */
  datatype Request =
    | Get(url: string)
    | Put(url: string, form: Form)
    | Delete(url: string, form: Form)
    | PostMultipart(url: string, parts: seq<Part>)

  /** The remote service together with the transport: the reply to each request. */
  type Transport = Request -> Response

  /** Ruby's string interpolation of a string or `nil`: `nil` becomes the empty string. */
  function Show(v: Option<string>): (r: string)
    ensures v.Some? ==> r == v.value
    ensures v.None? ==> r == ""
  {
    match v
    case None => ""
    case Some(s) => s
  }

  /** `hash[key]` on a data member: `nil` when the key is absent. */
  function Lookup(data: map<string, string>, key: string): (r: Option<string>)
    ensures r.Some? <==> key in data
    ensures r.Some? ==> r.value == data[key]
  {
    if key in data then Some(data[key]) else None
  }

  /** The keys of a form, in order. */
  function Keys(form: Form): (ks: seq<string>)
    ensures |ks| == |form|
    ensures forall i :: 0 <= i < |form| ==> ks[i] == form[i].0
  {
    if form == [] then [] else [form[0].0] + Keys(form[1..])
  }

  /** The values of a form, in order. */
  function Values(form: Form): (vs: seq<Option<string>>)
    ensures |vs| == |form|
    ensures forall i :: 0 <= i < |form| ==> vs[i] == form[i].1
  {
    if form == [] then [] else [form[0].1] + Values(form[1..])
  }

  /** How many parts of a multipart body carry the given name. */
  function Count(parts: seq<Part>, name: string): (n: nat)
    ensures n <= |parts|
    ensures n == 0 <==> forall i :: 0 <= i < |parts| ==> parts[i].name != name
  {
    if parts == [] then 0
    else (if parts[0].name == name then 1 else 0) + Count(parts[1..], name)
  }

  /** The value of the first part with the given name, if any. */
  function Find(parts: seq<Part>, name: string): (r: Option<PartValue>)
    ensures r.None? <==> Count(parts, name) == 0
    ensures r.Some? ==> exists i :: 0 <= i < |parts| && parts[i] == Part(name, r.value)
  {
    if parts == [] then None
    else if parts[0].name == name then Some(parts[0].value)
    else Find(parts[1..], name)
  }

  lemma {:induction false} CountConcat(p: seq<Part>, q: seq<Part>, name: string)
    ensures Count(p + q, name) == Count(p, name) + Count(q, name)
  {
    if p == [] {
      assert p + q == q;
    } else {
      assert (p + q)[1..] == p[1..] + q;
      CountConcat(p[1..], q, name);
    }
  }

  lemma {:induction false} FindConcat(p: seq<Part>, q: seq<Part>, name: string)
    ensures Find(p + q, name) == if Count(p, name) > 0 then Find(p, name) else Find(q, name)
  {
    if p == [] {
      assert p + q == q;
    } else {
      assert (p + q)[1..] == p[1..] + q;
      FindConcat(p[1..], q, name);
    }
  }

  lemma Concat3(a: seq<Part>, b: seq<Part>, c: seq<Part>, name: string)
    ensures Count(a + b + c, name) == Count(a, name) + Count(b, name) + Count(c, name)
    ensures Find(a + b + c, name) ==
      if Count(a, name) > 0 then Find(a, name)
      else if Count(b, name) > 0 then Find(b, name)
      else Find(c, name)
  {
    CountConcat(a, b, name);
    CountConcat(a + b, c, name);
    FindConcat(a, b, name);
    FindConcat(a + b, c, name);
  }
}
