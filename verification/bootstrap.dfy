/** `make_app` and the `run` path of `main`: choose the server class, probe the
    configured hosts, build the middleware stack, then pick the server to run it on. */
module Bootstrap {
  import opened Outcomes
  import opened Settings
  import opened Logs
  import PyText
  import Backend
  import Middleware
  import Probe
  import Listen

  /** What the process finds about itself: installed packages and `sys.argv[0]`. */
  datatype Environment = Environment(installed: Backend.Installed, argv0: string)

  /** What `make_app` produces: the application class's mixin, the probe's report and
      the wrapped application. */
  datatype AppPlan = AppPlan(mixin: Backend.Mixin, probe: Probe.ProbeReport, app: Middleware.App)

  /** `make_app(conf)`, where `reachable[i]` says whether the probe of the i-th
      configured host got a response. */
  method MakeApp(env: Environment, conf: Config, reachable: seq<bool>) returns (plan: AppPlan)
    requires |reachable| == |conf.hosts|
    ensures plan.mixin == Backend.UWsgiMixin <==> env.installed.uwsgi
    ensures plan.mixin == Backend.ThreadedMixin
            <==> !env.installed.uwsgi && (env.installed.gevent || PyText.EndsWith(env.argv0, "isso"))
    ensures |plan.probe.log| == 1
    ensures plan.probe.log[0].level == Info <==> exists i :: 0 <= i < |reachable| && reachable[i]
    ensures Probe.FirstSuccess(reachable).Some? ==>
      var k := Probe.FirstSuccess(reachable).value;
      plan.probe.probed == conf.hosts[..k + 1] && plan.probe.log == [Probe.Connected(conf.hosts[k])]
    ensures Probe.FirstSuccess(reachable).None? ==>
      plan.probe.probed == conf.hosts && plan.probe.log == [Probe.Unreachable(conf.hosts)]
    ensures Middleware.Layers(plan.app) == Middleware.WrapperList(conf.profile, conf.hosts)
    ensures Middleware.HasProfiler(Middleware.Layers(plan.app)) <==> conf.profile
  {
    Backend.SelectionPriority(env.installed, env.argv0);
    var mixin := Backend.ServerMixin(env.installed, env.argv0).value;
    var report := Probe.ProbeHosts(conf.hosts, reachable);
    var app := Middleware.BuildStack(conf.profile, conf.hosts);
    Middleware.ReduceStacksInOrder(Middleware.WrapperList(conf.profile, conf.hosts), Middleware.Isso);
    Middleware.StackOrder(conf.profile, conf.hosts);
    plan := AppPlan(mixin, report, app);
  }

  /** The server `main` starts. */
  datatype Server =
    | GeventServer(address: string)                              // gevent.pywsgi.WSGIServer
    | SimpleServer(address: string, threaded: bool, reloader: bool) // werkzeug run_simple
    | SocketServer(path: string)                                 // wsgi.SocketHTTPServer

  datatype Launch = Launch(server: Server, plan: AppPlan)

  /** The `run` path of `main`. A TCP listen value serves on gevent's WSGI server when
      gevent is installed and on werkzeug's threaded development server otherwise. A
      socket path is unlinked first; an error other than ENOENT aborts startup before
      the application or the server is built. */
  method Serve(env: Environment, conf: Config, reachable: seq<bool>, unlink: Listen.UnlinkOutcome)
    returns (r: Result<Launch, int>)
    requires |reachable| == |conf.hosts|
    ensures PyText.StartsWith(conf.listen, Listen.HttpScheme) ==>
      && r.Success?
      && (env.installed.gevent ==> r.value.server == GeventServer(conf.listen))
      && (!env.installed.gevent ==> r.value.server == SimpleServer(conf.listen, true, conf.reload))
    ensures !PyText.StartsWith(conf.listen, Listen.HttpScheme) ==>
      && (r.Failure? <==> unlink.UnlinkFailed? && unlink.errno != Listen.ENOENT)
      && (r.Failure? ==> r.error == unlink.errno)
      && (r.Success? ==> r.value.server == SocketServer(Listen.Classify(conf.listen).path))
    ensures r.Success? ==> Middleware.Layers(r.value.plan.app) == Middleware.WrapperList(conf.profile, conf.hosts)
    ensures r.Success? ==> (r.value.plan.mixin == Backend.UWsgiMixin <==> env.installed.uwsgi)
  {
    match Listen.Classify(conf.listen)
    case Tcp(address) =>
      var plan := MakeApp(env, conf, reachable);
      var server := if env.installed.gevent then GeventServer(address) else SimpleServer(address, true, conf.reload);
      r := Success(Launch(server, plan));
    case UnixSocket(path) =>
      match Listen.RemoveStaleSocket(unlink)
      case Fail(errno) =>
        r := Failure(errno);
      case Pass =>
        var plan := MakeApp(env, conf, reachable);
        r := Success(Launch(SocketServer(path), plan));
  }
}
