/** The configuration values the core reads. Parsing the file is not part of this
    model; each field is what the named typed accessor returns. */
module Settings {

  datatype Config = Config(
    hosts: seq<string>,  // conf.getiter("general", "host")
    maxAge: int,         // conf.getint("general", "max-age")
    profile: bool,       // conf.getboolean("server", "profile")
    listen: string,      // conf.get("server", "listen")
    reload: bool         // conf.getboolean("server", "reload")
  )
}
