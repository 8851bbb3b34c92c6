/** The middleware stack `make_app` builds with
    `reduce(lambda x, f: f(x), wrapper, isso)`. Each middleware is an opaque layer tag
    carrying the arguments it is constructed with. */
module Middleware {

  /** One wrapper constructor, with the arguments bound by `partial`. */
  datatype Layer =
    | LocalManager                                             // local_manager.make_middleware
    | Profiler(sortBy: seq<string>, restriction: string, limit: nat)
    | SharedData(exports: seq<(string, string)>)               // URL prefix -> package-relative directory
    | Cors(allowedHosts: seq<string>)                          // wsgi.CORSMiddleware(origin=origin(hosts))
    | SubUri                                                   // wsgi.SubURI
    | ProxyFix

  /** The application object: the bare `Isso` instance or a layer wrapped around one. */
  datatype App = Isso | Wrap(layer: Layer, inner: App)

  /** `reduce(lambda x, f: f(x), ws, app)`: constructors applied from left to right. */
  function Reduce(ws: seq<Layer>, app: App): App
    decreases |ws|
  {
    if |ws| == 0 then app else Reduce(ws[1..], Wrap(ws[0], app))
  }

  /** The layers around the `Isso` instance, innermost first. */
  function Layers(app: App): seq<Layer> {
    match app
    case Isso => []
    case Wrap(l, inner) => Layers(inner) + [l]
  }

  /** Removes the `n` outermost layers. */
  function Peel(app: App, n: nat): App {
    if n == 0 then app
    else match app
      case Isso => Isso
      case Wrap(_, inner) => Peel(inner, n - 1)
  }

  /** Folding stacks the constructors in list order: the first one applied ends up
      innermost, the last one outermost. */
  lemma {:induction false} ReduceStacksInOrder(ws: seq<Layer>, app: App)
    ensures Layers(Reduce(ws, app)) == Layers(app) + ws
    decreases |ws|
  {
    if |ws| > 0 {
      ReduceStacksInOrder(ws[1..], Wrap(ws[0], app));
      assert Layers(app) + [ws[0]] + ws[1..] == Layers(app) + ws;
    }
  }

  /** Peeling one more layer is peeling one layer off what is left. */
  lemma {:induction false} PeelOneMore(app: App, n: nat)
    ensures Peel(app, n + 1) == Peel(Peel(app, n), 1)
    decreases n
  {
    if n > 0 && app.Wrap? {
      PeelOneMore(app.inner, n - 1);
    }
  }

  /** Removing as many outer layers as were folded on gives back the wrapped application. */
  lemma {:induction false} PeelUndoesReduce(ws: seq<Layer>, app: App)
    ensures Peel(Reduce(ws, app), |ws|) == app
    decreases |ws|
  {
    if |ws| > 0 {
      var w := Wrap(ws[0], app);
      PeelUndoesReduce(ws[1..], w);
      PeelOneMore(Reduce(ws[1..], w), |ws| - 1);
    }
  }

  /** An application is determined by its layers. */
  lemma {:induction false} LayersDetermineApp(a: App, b: App)
    requires Layers(a) == Layers(b)
    ensures a == b
  {
    match a
    case Isso =>
    case Wrap(l, inner) =>
      assert |Layers(b)| > 0;
      var lb, ib :| b == Wrap(lb, ib);
      assert Layers(inner) == Layers(a)[..|Layers(a)| - 1] == Layers(b)[..|Layers(b)| - 1] == Layers(ib);
      LayersDetermineApp(inner, ib);
  }

  /** The profiler `make_app` configures: sorted by cumulative time, restricted to the
      first ten entries under `isso/` outside `isso/lib`. */
  const ProfilerLayer: Layer := Profiler(["cumtime"], "isso/(?!lib)", 10)

  /** The static-asset exports: `/js` and `/css` served from the package's `js/` and `css/`. */
  const StaticLayer: Layer := SharedData([("/js", "js/"), ("/css", "css/")])

  /** The wrapper list in the order `make_app` appends to it. */
  function WrapperList(profile: bool, hosts: seq<string>): seq<Layer> {
    [LocalManager]
    + (if profile then [ProfilerLayer] else [])
    + [StaticLayer, Cors(hosts), SubUri, ProxyFix]
  }

  function BuildStack(profile: bool, hosts: seq<string>): App {
    Reduce(WrapperList(profile, hosts), Isso)
  }

  predicate HasProfiler(layers: seq<Layer>) {
    exists i :: 0 <= i < |layers| && layers[i].Profiler?
  }

  /** The stack innermost first: local manager, profiler when configured, static assets,
      CORS, sub-URI, and the proxy fix outermost. The profiler is present exactly when
      profiling is on. */
  lemma StackOrder(profile: bool, hosts: seq<string>)
    ensures var app := BuildStack(profile, hosts);
      && app == Wrap(ProxyFix, Wrap(SubUri, Wrap(Cors(hosts), Wrap(StaticLayer,
                  if profile then Wrap(ProfilerLayer, Wrap(LocalManager, Isso))
                  else Wrap(LocalManager, Isso)))))
      && Layers(app)[0] == LocalManager
      && Layers(app)[|Layers(app)| - 1] == ProxyFix
      && |Layers(app)| == (if profile then 6 else 5)
      && (HasProfiler(Layers(app)) <==> profile)
  {
    var app := BuildStack(profile, hosts);
    ReduceStacksInOrder(WrapperList(profile, hosts), Isso);
    assert Layers(app) == WrapperList(profile, hosts);
    var core := Wrap(LocalManager, Isso);
    var profiled := if profile then Wrap(ProfilerLayer, core) else core;
    var withStatic := Wrap(StaticLayer, profiled);
    var withCors := Wrap(Cors(hosts), withStatic);
    var withSubUri := Wrap(SubUri, withCors);
    var expected := Wrap(ProxyFix, withSubUri);
    assert Layers(core) == [LocalManager];
    assert Layers(profiled) == [LocalManager] + (if profile then [ProfilerLayer] else []);
    assert Layers(withStatic) == Layers(profiled) + [StaticLayer];
    assert Layers(withCors) == Layers(profiled) + [StaticLayer, Cors(hosts)];
    assert Layers(withSubUri) == Layers(profiled) + [StaticLayer, Cors(hosts), SubUri];
    assert Layers(expected) == Layers(profiled) + [StaticLayer, Cors(hosts), SubUri, ProxyFix];
    if profile {
      assert Layers(app)[1].Profiler?;
    } else {
      assert Layers(app) == [LocalManager, StaticLayer, Cors(hosts), SubUri, ProxyFix];
    }
    LayersDetermineApp(app, expected);
  }
}
