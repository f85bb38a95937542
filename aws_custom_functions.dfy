/** The custom functions a configuration document can call through the `!AwsCustomFunction`
    tag (aws_custom_functions.py): command lines for the RTC and mixdown servers built from
    the load balancers of two other fleets, the location of the generated NGINX
    configuration, and the map from the names the document uses to these functions.

    What the functions learn from elsewhere is an input: each other fleet's configuration
    file gives the DNS name of its load balancer (None when there is none) and the port of
    its listener. */
module CustomFunctions {
  import opened Wrappers
  import opened ServiceConfig
  import Options
  import Text

  /** What loading another fleet's configuration file tells: the DNS name get_lb_details
      returns for its load balancer and the port get_listener_info returns. */
  datatype FleetLookup = FleetLookup(lbDns: Option<string>, listenerPort: int)

  /** The configuration files that can be loaded, by name. */
  type World = map<string, FleetLookup>

  /** The two addresses _get_audio_video_lb_address returns, the ports already str()'d. */
  datatype LbAddresses = LbAddresses(asLb: Option<string>, asPort: string, vsLb: Option<string>, vsPort: string)

  /** parse_config_from on a file name: a file that cannot be loaded raises. */
  function LoadFleet(world: World, file: string): (r: Result<FleetLookup>)
    ensures r.Success? <==> file in world
  {
    if file in world then Success(world[file]) else Failure(NotFound(file))
  }

  /** Lookup errors are not raised in a destroy or a dry run. */
  predicate NoErrorCheck(s: Options.Settings) {
    s.destroy || s.dryRun
  }

  /** _get_audio_video_lb_address: the audio server's load balancer and port, then the video
      server's. A missing load balancer raises unless the run destroys or is a dry run, in
      which case None is passed on; the audio server is looked up, and checked, first. */
  function AudioVideoLbAddress(opts: Option<Options.Settings>, world: World, asFile: string, vsFile: string)
    : (r: Result<LbAddresses>)
    ensures r.Success? <==>
      && opts.Some? && asFile in world && vsFile in world
      && (NoErrorCheck(opts.value) || (world[asFile].lbDns.Some? && world[vsFile].lbDns.Some?))
    ensures r.Success? ==>
      r.value == LbAddresses(world[asFile].lbDns, Text.IntToString(world[asFile].listenerPort),
                             world[vsFile].lbDns, Text.IntToString(world[vsFile].listenerPort))
    ensures opts.None? ==> r.Failure? && r.error.AttributeError?
    ensures opts.Some? && !NoErrorCheck(opts.value) && asFile in world && world[asFile].lbDns.None? ==>
      r == Failure(Raised("AudioServer LB not found"))
    ensures opts.Some? && !NoErrorCheck(opts.value) && asFile in world && world[asFile].lbDns.Some?
            && vsFile in world && world[vsFile].lbDns.None? ==>
      r == Failure(Raised("VideoServer LB not found"))
  {
    if opts.None? then Failure(AttributeError("'NoneType' object has no attribute 'destroy'"))
    else
      var noErrorCheck := NoErrorCheck(opts.value);
      var audio :- LoadFleet(world, asFile);
      if audio.lbDns.None? && !noErrorCheck then Failure(Raised("AudioServer LB not found"))
      else
        var video :- LoadFleet(world, vsFile);
        if video.lbDns.None? && !noErrorCheck then Failure(Raised("VideoServer LB not found"))
        else Success(LbAddresses(audio.lbDns, Text.IntToString(audio.listenerPort),
                                 video.lbDns, Text.IntToString(video.listenerPort)))
  }

  /** '{}'.format(lb): a missing load balancer is written as None. */
  function HostText(lb: Option<string>): string {
    if lb.Some? then lb.value else "None"
  }

  /** '-as=<lb>:<port>' and '-vs=<lb>:<port>' */
  function ServerArg(option: string, lb: Option<string>, port: string): string {
    option + "=" + HostText(lb) + ":" + port
  }

  /** The command line get_rtc_cmdline_params and get_mixdown_cmdline_params build: the
      environment flag, then the audio and the video server addresses. */
  function CommandLine(flag: string, a: LbAddresses): string {
    flag + " " + ServerArg("-as", a.asLb, a.asPort) + " " + ServerArg("-vs", a.vsLb, a.vsPort)
  }

  const PortRange: string := " -min_port=30000 -max_port=65535"

  /** get_rtc_cmdline_params_port_range: the same command line with the port range. */
  function PortRangeCommandLine(flag: string, a: LbAddresses): (s: string)
    ensures |CommandLine(flag, a)| < |s| && s[..|CommandLine(flag, a)|] == CommandLine(flag, a)
  {
    CommandLine(flag, a) + PortRange
  }

  /** get_nginx_config_location */
  function NginxConfigLocation(s3bucket: string, imageTag: string): string {
    s3bucket + "/nginx-" + imageTag + ".conf"
  }

  /** The image tag a location inside `s3bucket` names. */
  function TagOfLocation(s3bucket: string, location: string): Option<string> {
    var head := s3bucket + "/nginx-";
    if |head| + 5 <= |location| && location[..|head|] == head && location[|location| - 5..] == ".conf"
    then Some(location[|head|..|location| - 5])
    else None
  }

  /** The location names its bucket and image tag: reading the tag back from it gives the
      tag it was built from. */
  lemma NginxConfigLocationRoundTrip(s3bucket: string, imageTag: string)
    ensures TagOfLocation(s3bucket, NginxConfigLocation(s3bucket, imageTag)) == Some(imageTag)
  {
    var loc := NginxConfigLocation(s3bucket, imageTag);
    var head := s3bucket + "/nginx-";
    assert loc == head + imageTag + ".conf";
    assert loc[..|head|] == head;
    assert loc[|loc| - 5..] == ".conf";
    assert loc[|head|..|loc| - 5] == imageTag;
  }

  /** Two words joined by a space split back into those two words. */
  lemma TwoWords(p: string, q: string)
    requires p != [] && Text.NoSpace(p) && q != [] && Text.NoSpace(q)
    ensures Text.Words(p + " " + q) == [p, q]
  {
    assert p + " " + q == p + [' '] + q;
    Text.WordsAcrossSpace(p, ' ', q);
    Text.OneWord(p);
    Text.OneWord(q);
  }

  /** Three words joined by spaces split back into those three words. */
  lemma ThreeWords(p: string, q: string, r: string)
    requires p != [] && Text.NoSpace(p) && q != [] && Text.NoSpace(q) && r != [] && Text.NoSpace(r)
    ensures Text.Words(p + " " + q + " " + r) == [p, q, r]
  {
    var qr := q + " " + r;
    assert p + " " + q + " " + r == p + [' '] + qr;
    Text.WordsAcrossSpace(p, ' ', qr);
    Text.OneWord(p);
    TwoWords(q, r);
  }

  /** The words the server process is started with: the flag, the audio server argument
      and the video server argument, when none of the parts has a space in it. */
  lemma CommandLineWords(flag: string, a: LbAddresses)
    requires flag != [] && Text.NoSpace(flag)
    requires Text.NoSpace(HostText(a.asLb)) && Text.NoSpace(a.asPort)
    requires Text.NoSpace(HostText(a.vsLb)) && Text.NoSpace(a.vsPort)
    ensures Text.Words(CommandLine(flag, a)) ==
      [flag, ServerArg("-as", a.asLb, a.asPort), ServerArg("-vs", a.vsLb, a.vsPort)]
  {
    NoSpaceJoin("-as=", HostText(a.asLb), ":", a.asPort);
    NoSpaceJoin("-vs=", HostText(a.vsLb), ":", a.vsPort);
    assert ServerArg("-as", a.asLb, a.asPort) == "-as=" + HostText(a.asLb) + ":" + a.asPort;
    assert ServerArg("-vs", a.vsLb, a.vsPort) == "-vs=" + HostText(a.vsLb) + ":" + a.vsPort;
    ThreeWords(flag, ServerArg("-as", a.asLb, a.asPort), ServerArg("-vs", a.vsLb, a.vsPort));
  }

  /** The port range adds exactly its two arguments to the words of the command line. */
  lemma PortRangeCommandLineWords(flag: string, a: LbAddresses)
    ensures Text.Words(PortRangeCommandLine(flag, a)) ==
      Text.Words(CommandLine(flag, a)) + ["-min_port=30000", "-max_port=65535"]
  {
    var c := CommandLine(flag, a);
    var rest := PortRange[1..];
    assert PortRange == [' '] + rest;
    assert PortRangeCommandLine(flag, a) == c + [' '] + rest;
    Text.WordsAcrossSpace(c, ' ', rest);
    PortRangeWords();
  }

  lemma PortRangeWords()
    ensures Text.Words(PortRange[1..]) == ["-min_port=30000", "-max_port=65535"]
  {
    var lo, hi := "-min_port=30000", "-max_port=65535";
    assert PortRange[1..] == lo + [' '] + hi;
    PortArgumentsNoSpace();
    TwoWords(lo, hi);
  }

  lemma PortArgumentsNoSpace()
    ensures Text.NoSpace("-min_port=30000") && Text.NoSpace("-max_port=65535")
  {
    forall i | 0 <= i < 15
      ensures !Text.IsSpace("-min_port=30000"[i]) && !Text.IsSpace("-max_port=65535"[i])
    {
    }
  }

  lemma NoSpaceJoin(a: string, b: string, c: string, d: string)
    requires Text.NoSpace(a) && Text.NoSpace(b) && Text.NoSpace(c) && Text.NoSpace(d)
    requires a != []
    ensures a + b + c + d != [] && Text.NoSpace(a + b + c + d)
  {
    var s := a + b + c + d;
    forall i | 0 <= i < |s| ensures !Text.IsSpace(s[i]) {
      if i < |a| { assert s[i] == a[i]; }
      else if i < |a| + |b| { assert s[i] == b[i - |a|]; }
      else if i < |a| + |b| + |c| { assert s[i] == c[i - |a| - |b|]; }
      else { assert s[i] == d[i - |a| - |b| - |c|]; }
    }
  }

  /** In a destroy or a dry run, a fleet without a load balancer still yields a command
      line: its address is written as None. */
  lemma MissingLbWrittenAsNone(opts: Options.Settings, world: World, asFile: string, vsFile: string, flag: string)
    requires NoErrorCheck(opts) && asFile in world && vsFile in world && world[asFile].lbDns.None?
    ensures AudioVideoLbAddress(Some(opts), world, asFile, vsFile).Success?
    ensures var a := AudioVideoLbAddress(Some(opts), world, asFile, vsFile).value;
      ServerArg("-as", a.asLb, a.asPort) == "-as=None:" + Text.IntToString(world[asFile].listenerPort)
  {
  }

  // ---------------------------------------------------------------------------
  // The NGINX configuration

  /** What generate_nginx_config_file asks the generator for: the template, the image tag,
      the region, the bucket, whether to upload, and the five configuration files in order. */
  datatype NginxJob = NginxJob(template: string, imageTag: string, region: string, s3bucket: string,
                               uploadToS3: bool, configFiles: seq<string>)

  const NginxDone: string := "Finished generating NGINX config file"

  /** generate_nginx_config_file's request to the generator: the generated file is uploaded
      to S3 except in a destroy or a dry run. */
  function NginxGeneration(opts: Option<Options.Settings>, params: seq<string>): (r: Result<NginxJob>)
    requires |params| == 9
    ensures r.Success? <==> opts.Some?
    ensures r.Success? ==>
      && r.value.uploadToS3 == !(opts.value.destroy || opts.value.dryRun)
      && r.value.configFiles == params[4..9]
      && (r.value.template, r.value.imageTag, r.value.region, r.value.s3bucket) == (params[0], params[1], params[2], params[3])
  {
    if opts.None? then Failure(AttributeError("'NoneType' object has no attribute 'destroy'"))
    else
      var upload := !(opts.value.destroy || opts.value.dryRun);
      Success(NginxJob(params[0], params[1], params[2], params[3], upload,
                       [params[4], params[5], params[6], params[7], params[8]]))
  }

  // ---------------------------------------------------------------------------
  // The function map

  /** The five functions a document can call. */
  datatype CustomFn =
    | RtcCmdlineParams
    | MixdownCmdlineParams
    | GenerateNginxConfigFile
    | RtcCmdlineParamsPortRange
    | NginxConfigLocationFn

  /** The name a document calls a function by. */
  function NameOf(fn: CustomFn): string {
    match fn
    case RtcCmdlineParams => "get_rtc_cmdline_params()"
    case MixdownCmdlineParams => "get_mixdown_cmdline_params()"
    case GenerateNginxConfigFile => "generate_nginx_config_file()"
    case RtcCmdlineParamsPortRange => "get_rtc_cmdline_params_port_range()"
    case NginxConfigLocationFn => "get_nginx_config_location()"
  }

  /** The number of arguments each function takes. */
  function Arity(fn: CustomFn): nat {
    if fn == GenerateNginxConfigFile then 9 else 2
  }

  /** get_custom_functions_map: each of the five functions under its own name, and nothing
      else. */
  function CustomFunctionsMap(): (m: map<string, CustomFn>)
    ensures m.Keys == {"get_rtc_cmdline_params()", "get_mixdown_cmdline_params()", "generate_nginx_config_file()",
                       "get_rtc_cmdline_params_port_range()", "get_nginx_config_location()"}
    ensures forall name :: name in m ==> NameOf(m[name]) == name
  {
    map fn: CustomFn | fn in AllFns :: NameOf(fn) := fn
  }

  const AllFns: set<CustomFn> :=
    {RtcCmdlineParams, MixdownCmdlineParams, GenerateNginxConfigFile, RtcCmdlineParamsPortRange, NginxConfigLocationFn}

  /** The map knows every function, under its own name, so no two share a name. */
  lemma CustomFunctionsMapComplete(fn: CustomFn)
    ensures NameOf(fn) in CustomFunctionsMap() && CustomFunctionsMap()[NameOf(fn)] == fn
  {
    assert fn in AllFns;
  }

  /** AwsCustomFunctions: the object whose bound methods the map holds; set_env gives it the
      configuration the command lines take their flag from. */
  class AwsCustomFunctions {
    var config: Option<Config>

    constructor ()
      ensures config.None?
    {
      config := None;
    }

    /** set_env */
    method SetEnv(env: Config)
      modifies this
      ensures config == Some(env)
    {
      config := Some(env);
    }

    /** self.config.get_cmdline_env_flag(), formatted with '{}'. */
    function CmdlineEnvFlag(): (r: Result<string>)
      reads this
      ensures r.Success? <==> config.Some? && "cmdline_env_flag" in config.value.state
      ensures r.Success? ==> r.value == PyStr(config.value.state["cmdline_env_flag"])
      ensures config.None? ==> r.Failure? && r.error.AttributeError?
      ensures config.Some? && "cmdline_env_flag" !in config.value.state ==> r == Failure(KeyError("cmdline_env_flag"))
    {
      if config.None? then Failure(AttributeError("'AwsCustomFunctions' object has no attribute 'config'"))
      else
        var flag :- Get(config.value.state, "cmdline_env_flag");
        Success(PyStr(flag))
    }

    /** Calling the function `fn` with `params`, under the run options `opts`: a call with
        the wrong number of arguments raises a TypeError; the command lines look the load
        balancers up before they read the flag. */
    function Invoke(fn: CustomFn, params: seq<string>, opts: Option<Options.Settings>, world: World)
      : (r: Result<string>)
      reads this
      ensures |params| != Arity(fn) ==> r.Failure? && r.error.TypeError?
      ensures fn == NginxConfigLocationFn && |params| == 2 ==>
        r == Success(NginxConfigLocation(params[0], params[1]))
      ensures fn == GenerateNginxConfigFile && |params| == 9 ==>
        (r.Success? <==> opts.Some?) && (r.Success? ==> r.value == NginxDone)
      ensures (fn == RtcCmdlineParams || fn == MixdownCmdlineParams || fn == RtcCmdlineParamsPortRange) && |params| == 2 ==>
        (r.Success? <==> AudioVideoLbAddress(opts, world, params[0], params[1]).Success? && CmdlineEnvFlag().Success?)
      ensures (fn == RtcCmdlineParams || fn == MixdownCmdlineParams) && |params| == 2 && r.Success? ==>
        r.value == CommandLine(CmdlineEnvFlag().value, AudioVideoLbAddress(opts, world, params[0], params[1]).value)
      ensures fn == RtcCmdlineParamsPortRange && |params| == 2 && r.Success? ==>
        r.value == PortRangeCommandLine(CmdlineEnvFlag().value, AudioVideoLbAddress(opts, world, params[0], params[1]).value)
    {
      if |params| != Arity(fn) then Failure(TypeError(NameOf(fn) + " got the wrong number of arguments"))
      else
        match fn
        case NginxConfigLocationFn => Success(NginxConfigLocation(params[0], params[1]))
        case GenerateNginxConfigFile =>
          var job :- NginxGeneration(opts, params);
          Success(NginxDone)
        case RtcCmdlineParams =>
          var a :- AudioVideoLbAddress(opts, world, params[0], params[1]);
          var flag :- CmdlineEnvFlag();
          Success(CommandLine(flag, a))
        case MixdownCmdlineParams =>
          var a :- AudioVideoLbAddress(opts, world, params[0], params[1]);
          var flag :- CmdlineEnvFlag();
          Success(CommandLine(flag, a))
        case RtcCmdlineParamsPortRange =>
          var a :- AudioVideoLbAddress(opts, world, params[0], params[1]);
          var flag :- CmdlineEnvFlag();
          Success(PortRangeCommandLine(flag, a))
    }
  }

  /** The RTC and the mixdown command lines are the same command line: for every input both
      functions give the same result. */
  lemma RtcAndMixdownAgree(fns: AwsCustomFunctions, params: seq<string>, opts: Option<Options.Settings>, world: World)
    requires |params| == 2
    ensures fns.Invoke(RtcCmdlineParams, params, opts, world) == fns.Invoke(MixdownCmdlineParams, params, opts, world)
  {
  }
}
