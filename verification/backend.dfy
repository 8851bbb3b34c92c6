/** The import block at the top of the package and the server-class choice in
    `make_app`. What can be imported, and `sys.argv[0]`, are inputs. */
module Backend {
  import opened Outcomes
  import PyText

  /** The mixin combined with `Isso` to form the application class. */
  datatype Mixin = UWsgiMixin | ThreadedMixin | ProcessMixin

  /** The state of a module-level Python name: never assigned, assigned None, or
      bound to an imported module (which is truthy). */
  datatype Binding = Unbound | NoneValue | Module

  /** The module globals the import block leaves behind. */
  datatype Runtime = Runtime(uwsgi: Binding, gevent: Binding, monkeyPatched: bool)

  /** What the import block probes for. */
  datatype Installed = Installed(uwsgi: bool, gevent: bool)

  /** The import block: `import uwsgi`, and only when that fails, `import gevent.monkey`
      followed by `patch_all()`. */
  function ImportBlock(installed: Installed): (rt: Runtime)
    ensures rt.uwsgi != Unbound
    ensures rt.uwsgi == Module <==> installed.uwsgi
    ensures rt.monkeyPatched <==> !installed.uwsgi && installed.gevent
    ensures rt.gevent == Unbound <==> installed.uwsgi
    ensures rt.gevent == Module <==> !installed.uwsgi && installed.gevent
  {
    if installed.uwsgi then Runtime(Module, Unbound, false)
    else if installed.gevent then Runtime(NoneValue, Module, true)
    else Runtime(NoneValue, NoneValue, false)
  }

  /** Reading a Python name: NameError when unbound, otherwise its truth value. */
  function Truth(b: Binding): Result<bool, string> {
    match b
    case Unbound => Failure("NameError")
    case NoneValue => Success(false)
    case Module => Success(true)
  }

  /** The `if uwsgi / elif gevent or sys.argv[0].endswith("isso") / else` chain, with
      Python's left-to-right, short-circuit evaluation of the names it reads. */
  function SelectMixin(rt: Runtime, argv0: string): Result<Mixin, string> {
    match Truth(rt.uwsgi)
    case Failure(e) => Failure(e)
    case Success(true) => Success(UWsgiMixin)
    case Success(false) =>
      match Truth(rt.gevent)
      case Failure(e) => Failure(e)
      case Success(g) =>
        if g || PyText.EndsWith(argv0, "isso") then Success(ThreadedMixin) else Success(ProcessMixin)
  }

  /** The server class chosen for what is installed and how the program was invoked. */
  function ServerMixin(installed: Installed, argv0: string): Result<Mixin, string> {
    SelectMixin(ImportBlock(installed), argv0)
  }

  /** The selection never reads the unbound `gevent` name, and follows a fixed priority:
      uWSGI when it is importable, otherwise threaded when gevent is importable or the
      program is invoked as `...isso`, otherwise multi-process. */
  lemma SelectionPriority(installed: Installed, argv0: string)
    ensures ServerMixin(installed, argv0).Success?
    ensures ServerMixin(installed, argv0).value == UWsgiMixin <==> installed.uwsgi
    ensures ServerMixin(installed, argv0).value == ThreadedMixin
            <==> !installed.uwsgi && (installed.gevent || PyText.EndsWith(argv0, "isso"))
    ensures ServerMixin(installed, argv0).value == ProcessMixin
            <==> !installed.uwsgi && !installed.gevent && !PyText.EndsWith(argv0, "isso")
  {
  }

  /** With uWSGI importable, nothing else about the environment matters. */
  lemma UWsgiDominates(gevent1: bool, gevent2: bool, argv1: string, argv2: string)
    ensures ServerMixin(Installed(true, gevent1), argv1) == ServerMixin(Installed(true, gevent2), argv2)
  {
  }
}
