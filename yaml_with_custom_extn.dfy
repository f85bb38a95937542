/** The `!AwsCustomFunction` tag (scripts/yaml_with_custom_extn.py): a node of the
    configuration document names a custom function and its arguments; the registered map
    resolves the name to a function, and when the document is dumped the node is replaced
    by the string the function returns.

    The YAML library itself (loading, dumping, the registration of the constructor and the
    representer) is not part of this model: the node arrives as its `value`, and dumping
    produces the tagged scalar the representer returns. */
module CustomTag {
  import opened Wrappers
  import opened ServiceConfig
  import Options
  import opened CustomFunctions

  const YamlTag: string := "!AwsCustomFunction"

  /** The tag of the plain string scalar a resolved node is dumped as. */
  const StrTag: string := "tag:yaml.org,2002:str"

  /** node.value of a tagged node: a scalar's text, or the values of a sequence's items. */
  datatype NodeValue = ScalarText(text: string) | Items(values: seq<string>)

  /** A bound method of the custom-functions object: the object and which of its methods. */
  datatype BoundMethod = BoundMethod(self: AwsCustomFunctions, fn: CustomFn)

  /** The function name and the arguments __init__ reads off a node: the first item and the
      remaining items, in order, of a non-empty sequence; no name and no arguments for
      anything else. */
  function CallOf(line: NodeValue): (r: (Option<string>, seq<string>))
    ensures line.Items? && |line.values| > 0 ==> r == (Some(line.values[0]), line.values[1..])
    ensures !(line.Items? && |line.values| > 0) ==> r == (None, [])
    ensures r.0.Some? ==> line == Items([r.0.value] + r.1)
  {
    if line.Items? && |line.values| > 0 then (Some(line.values[0]), line.values[1..]) else (None, [])
  }

  /** The mapping step of __repr__: the function registered under the name. An unmapped name
      raises; a node without a name fails already when the message is built, concatenating
      a string and None. */
  function Resolve(fnName: Option<string>, fnMap: map<string, BoundMethod>): (r: Result<BoundMethod>)
    ensures r.Success? <==> fnName.Some? && fnName.value in fnMap
    ensures r.Success? ==> r.value == fnMap[fnName.value]
    ensures fnName.None? ==> r.Failure? && r.error.TypeError?
    ensures fnName.Some? && fnName.value !in fnMap ==>
      r == Failure(Raised("No function mapping found for " + fnName.value))
  {
    if fnName.Some? && fnName.value in fnMap then Success(fnMap[fnName.value])
    else if fnName.None? then Failure(TypeError("can only concatenate str (not \"NoneType\") to str"))
    else Failure(Raised("No function mapping found for " + fnName.value))
  }

  /** The map get_custom_functions_map gives: each name bound to that method of `fns`. */
  function BoundFunctionsMap(fns: AwsCustomFunctions): (m: map<string, BoundMethod>)
    ensures m.Keys == CustomFunctionsMap().Keys
    ensures forall name :: name in m ==> m[name] == BoundMethod(fns, CustomFunctionsMap()[name])
  {
    map name | name in CustomFunctionsMap() :: BoundMethod(fns, CustomFunctionsMap()[name])
  }

  /** The class attributes: the loaded configuration and the function map. */
  class TagRegistry {
    var yamlConfig: Option<Value>
    var fnMap: map<string, BoundMethod>

    /** The attributes as the class defines them: no configuration and an empty map. */
    constructor ()
      ensures yamlConfig.None? && fnMap == map[]
    {
      yamlConfig, fnMap := None, map[];
    }

    /** register_mapping: always records the configuration; a map of None keeps the map
        registered before. */
    method RegisterMapping(yamlConfig: Value, awsFnMap: Option<map<string, BoundMethod>>)
      modifies this
      ensures this.yamlConfig == Some(yamlConfig)
      ensures awsFnMap.Some? ==> fnMap == awsFnMap.value
      ensures awsFnMap.None? ==> fnMap == old(fnMap)
    {
      this.yamlConfig := Some(yamlConfig);
      if awsFnMap.Some? {
        fnMap := awsFnMap.value;
      }
    }
  }

  /** An AwsCustomFunction object: built from a tagged node, evaluated on demand. */
  class AwsCustomFunction {
    const line: NodeValue
    var fnName: Option<string>
    var fnParams: seq<string>
    /** `value`, which only a successful __repr__ sets. */
    var value: Option<string>

    /** __init__: the name is the first item, and each further item is appended to the
        arguments in turn. */
    constructor (line: NodeValue)
      ensures this.line == line && (fnName, fnParams) == CallOf(line) && value.None?
    {
      this.line := line;
      fnName, fnParams, value := None, [], None;
      new;
      if line.Items? && |line.values| > 0 {
        fnName := Some(line.values[0]);
        var rest := line.values[1..];
        var i := 0;
        while i < |rest|
          invariant 0 <= i <= |rest|
          invariant fnParams == rest[..i]
          invariant fnName == Some(line.values[0]) && value.None?
        {
          fnParams := fnParams + [rest[i]];
          i := i + 1;
        }
        assert rest[..i] == rest;
      }
    }

    /** __repr__: call the mapped function with the arguments and keep its result in
        `value`. The function runs under the run options `opts`, against the other fleets'
        configurations in `world`, and reads its object's state at the time of the call. */
    method Repr(reg: TagRegistry, opts: Option<Options.Settings>, world: World) returns (o: Outcome)
      modifies this`value
      ensures Resolve(fnName, reg.fnMap).Failure? ==>
        o == Fail(Resolve(fnName, reg.fnMap).error) && value == old(value)
      ensures Resolve(fnName, reg.fnMap).Success? ==>
        var m := Resolve(fnName, reg.fnMap).value;
        var call := m.self.Invoke(m.fn, fnParams, opts, world);
        && (o.Pass? <==> call.Success?)
        && (call.Success? ==> value == Some(call.value))
        && (call.Failure? ==> o == Fail(call.error) && value == old(value))
    {
      var resolved := Resolve(fnName, reg.fnMap);
      if resolved.Failure? {
        return Fail(resolved.error);
      }
      var m := resolved.value;
      var call := m.self.Invoke(m.fn, fnParams, opts, world);
      if call.Failure? {
        return Fail(call.error);
      }
      value := Some(call.value);
      o := Pass;
    }
  }

  /** to_yaml: evaluate the node, then represent its value as a plain string scalar. */
  method ToYaml(data: AwsCustomFunction, reg: TagRegistry, opts: Option<Options.Settings>, world: World)
    returns (r: Result<(string, string)>)
    modifies data`value
    ensures r.Success? <==>
      && Resolve(data.fnName, reg.fnMap).Success?
      && var m := Resolve(data.fnName, reg.fnMap).value;
         m.self.Invoke(m.fn, data.fnParams, opts, world).Success?
    ensures r.Success? ==>
      var m := Resolve(data.fnName, reg.fnMap).value;
      r.value == (StrTag, m.self.Invoke(m.fn, data.fnParams, opts, world).value)
  {
    var o := data.Repr(reg, opts, world);
    if o.Fail? {
      return Failure(o.error);
    }
    r := Success((StrTag, data.value.value));
  }

  // ---------------------------------------------------------------------------
  // Resolution through the custom functions

  /** A scalar tagged node has no function name, so evaluating it always fails. */
  lemma ScalarNodeNeverResolves(text: string, fnMap: map<string, BoundMethod>)
    ensures Resolve(CallOf(ScalarText(text)).0, fnMap).Failure?
    ensures Resolve(CallOf(ScalarText(text)).0, fnMap).error.TypeError?
  {
  }

  /** A node naming get_nginx_config_location() with a bucket and an image tag, under the
      map of the custom functions, evaluates to the configuration's location in the bucket. */
  lemma NginxLocationNode(fns: AwsCustomFunctions, s3bucket: string, imageTag: string,
                          opts: Option<Options.Settings>, world: World)
    ensures
      var call := CallOf(Items(["get_nginx_config_location()", s3bucket, imageTag]));
      var m := Resolve(call.0, BoundFunctionsMap(fns));
      && m == Success(BoundMethod(fns, NginxConfigLocationFn))
      && fns.Invoke(m.value.fn, call.1, opts, world) == Success(NginxConfigLocation(s3bucket, imageTag))
  {
    var node := ["get_nginx_config_location()", s3bucket, imageTag];
    assert node[1..] == [s3bucket, imageTag];
    CustomFunctionsMapComplete(NginxConfigLocationFn);
  }

  /** A node naming a function outside the map raises, naming the function. */
  lemma UnmappedNameRaises(fns: AwsCustomFunctions, name: string, params: seq<string>)
    requires name !in CustomFunctionsMap()
    ensures Resolve(CallOf(Items([name] + params)).0, BoundFunctionsMap(fns))
            == Failure(Raised("No function mapping found for " + name))
  {
    assert ([name] + params)[0] == name;
  }
}
