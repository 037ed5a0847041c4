/** `SpiderSchema._dump_login_data` and `_load_login_data`: the login
    triple is flat (`login_url`, `login_user`, `login_password`) on the wire
    and a one-element `init_requests` list in storage. */
module Login {
  import opened Wrappers
  import opened Values

  /** The three flat keys of the wire form. */
  const FlatKeys: set<string> := {"login_url", "login_user", "login_password"}

  /** The stored login request carrying the three values. */
  function LoginRequest(url: Value, user: Value, password: Value): Value {
    Dict(map["type" := Str("login"), "loginurl" := url, "username" := user, "password" := password])
  }

  /** All three flat keys are present and truthy. */
  predicate HasLogin(item: Record) {
    forall k :: k in FlatKeys ==> k in item && Truthy(item[k])
  }

  /** `_load_login_data`: a complete, truthy triple becomes exactly one login
      request in `init_requests`; otherwise `init_requests` is left as it
      was. Either way the three flat keys are gone. */
  function LoadLogin(item: Record): (r: Record)
    ensures forall k :: k in FlatKeys ==> k !in r
    ensures HasLogin(item) ==>
      "init_requests" in r
      && r["init_requests"] == List([LoginRequest(item["login_url"], item["login_user"], item["login_password"])])
    ensures !HasLogin(item) ==> SameOn(item, r, "init_requests")
    ensures forall k :: k !in FlatKeys && k != "init_requests" ==> SameOn(item, r, k)
  {
    var rest := item - FlatKeys;
    if HasLogin(item) then
      rest["init_requests" := List([LoginRequest(item["login_url"], item["login_user"], item["login_password"])])]
    else rest
  }

  /** `init_requests[0][key]`, or the exception raised on the way. */
  function Field(request: Value, key: string): Result<Value, Error> {
    match request
    case Dict(m) => if key in m then Success(m[key]) else Failure(KeyError(key))
    case _ => Failure(TypeError)
  }

  /** A list whose first element is a dict holding the three login fields. */
  predicate WellFormedRequests(requests: Value) {
    && requests.List? && requests.elems != []
    && requests.elems[0].Dict?
    && var m := requests.elems[0].fields;
    && "loginurl" in m && "username" in m && "password" in m
  }

  /** `_dump_login_data`: `init_requests` is popped; when it was truthy, its
      first element's `loginurl`, `username` and `password` become the three
      flat keys. A truthy non-list or a malformed first request raises. */
  function DumpLogin(item: Record): (r: Result<Record, Error>)
    ensures r.Success? ==> "init_requests" !in r.value
    ensures r.Failure? <==> Truthy(Get(item, "init_requests")) && !WellFormedRequests(item["init_requests"])
    ensures r.Success? ==> forall k :: k !in FlatKeys && k != "init_requests" ==> SameOn(item, r.value, k)
    ensures !Truthy(Get(item, "init_requests")) ==> r == Success(item - {"init_requests"})
    ensures r.Success? && Truthy(Get(item, "init_requests")) ==>
      && item["init_requests"].List?
      && var first := item["init_requests"].elems[0];
      && first.Dict?
      && "loginurl" in first.fields && "username" in first.fields && "password" in first.fields
      && (forall k :: k in FlatKeys ==> k in r.value)
      && r.value["login_url"] == first.fields["loginurl"]
      && r.value["login_user"] == first.fields["username"]
      && r.value["login_password"] == first.fields["password"]
  {
    var requests := Get(item, "init_requests");
    var rest := item - {"init_requests"};
    if !Truthy(requests) then Success(rest)
    else match requests
      case List(xs) =>
        var first := xs[0];
        var url :- Field(first, "loginurl");
        var user :- Field(first, "username");
        var password :- Field(first, "password");
        Success(rest["login_url" := url]["login_user" := user]["login_password" := password])
      // Python subscripts a dict with the int 0 and raises `KeyError(0)`;
      // keys here are strings, so the key is written "0"
      case Dict(_) => Failure(KeyError("0"))
      case _ => Failure(TypeError)
  }

  /** Loading a complete login and dumping the stored form gives back the
      record as it came, minus any `init_requests` it carried. */
  lemma LoadThenDump(item: Record)
    requires HasLogin(item)
    ensures DumpLogin(LoadLogin(item)) == Success(item - {"init_requests"})
  {
    var stored := LoadLogin(item);
    var r := DumpLogin(stored);
    assert r.Success?;
    assert forall k :: k in FlatKeys ==> k in r.value && r.value[k] == item[k];
    assert r.value == item - {"init_requests"};
  }

  /** Dumping a stored single login request with truthy values and loading
      the result gives back the stored form, minus any stray flat keys. */
  lemma DumpThenLoad(item: Record, url: Value, user: Value, password: Value)
    requires Truthy(url) && Truthy(user) && Truthy(password)
    requires "init_requests" in item && item["init_requests"] == List([LoginRequest(url, user, password)])
    ensures DumpLogin(item).Success?
    ensures LoadLogin(DumpLogin(item).value) == item - FlatKeys
  {
    var flat := DumpLogin(item).value;
    assert HasLogin(flat);
    var back := LoadLogin(flat);
    assert forall k :: k in back <==> k in item - FlatKeys;
    assert back == item - FlatKeys;
  }

  /** Any incomplete or falsy triple is dropped on load, without an error
      and without an `init_requests` entry being added. */
  lemma PartialLoginDropped(item: Record)
    requires !HasLogin(item) && "init_requests" !in item
    ensures var r := LoadLogin(item);
            "init_requests" !in r && forall k :: k in FlatKeys ==> k !in r
  {
  }
}
