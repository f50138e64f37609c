/** `AppService`: the command allow-list in front of `spawn`, and the
    configuration the service reports, with its database connection string. */
module Service {
  import opened Common
  import opened Strings
  import opened Urls

  const AllowedCommands: seq<string> := ["ls", "cat"]
  const AllowedArgs: seq<string> := ["-la", "/etc/hosts"]

  /** What `isValidCommand` accepts: an allowed program, and only allowed
      arguments. */
  predicate ValidCommand(exec: string, args: seq<string>)
  {
    exec in AllowedCommands && forall k :: 0 <= k < |args| ==> args[k] in AllowedArgs
  }

  /** `const [exec, ...args] = command.split(' ')`. */
  function ParseCommand(command: string): (r: (string, seq<string>))
    ensures Join([r.0] + r.1, ' ') == command
    ensures ' ' !in r.0 && forall k :: 0 <= k < |r.1| ==> ' ' !in r.1[k]
  {
    var parts := Split(command, ' ');
    SplitThenJoin(command, ' ');
    assert parts == [parts[0]] + parts[1..];
    (parts[0], parts[1..])
  }

  /** Splitting is the inverse of joining with single spaces. */
  lemma ParseCommandOfJoin(exec: string, args: seq<string>)
    requires ' ' !in exec && forall k :: 0 <= k < |args| ==> ' ' !in args[k]
    ensures ParseCommand(Join([exec] + args, ' ')) == (exec, args)
  {
    var parts := [exec] + args;
    assert forall k :: 0 <= k < |parts| ==> ' ' !in parts[k] by {
      forall k | 0 <= k < |parts| ensures ' ' !in parts[k] {
        if k > 0 { assert parts[k] == args[k - 1]; }
      }
    }
    JoinThenSplit(parts, ' ');
    assert parts[1..] == args;
  }

  /** The allow-list depends only on which arguments occur, not on their
      order or on how often they occur. */
  lemma ValidityIgnoresOrderAndRepetition(exec: string, a: seq<string>, b: seq<string>)
    requires forall x :: x in a <==> x in b
    ensures ValidCommand(exec, a) <==> ValidCommand(exec, b)
  {
    if ValidCommand(exec, a) {
      forall k | 0 <= k < |b| ensures b[k] in AllowedArgs {
        assert b[k] in a;
      }
    }
    if ValidCommand(exec, b) {
      forall k | 0 <= k < |a| ensures a[k] in AllowedArgs {
        assert a[k] in b;
      }
    }
  }

  /** Two spaces in a row produce an empty argument, which is not allowed. */
  lemma DoubleSpaceIsRejected(command: string, i: nat)
    requires i + 1 < |command| && command[i] == ' ' && command[i + 1] == ' '
    ensures !ValidCommand(ParseCommand(command).0, ParseCommand(command).1)
  {
    AdjacentSeparatorsGiveEmptyPiece(command, ' ', i);
    var args := ParseCommand(command).1;
    var k :| 0 <= k < |args| && args[k] == "";
    assert args[k] !in AllowedArgs;
  }

  /** A trailing space produces an empty last argument, which is not allowed. */
  lemma TrailingSpaceIsRejected(command: string)
    requires |command| >= 1 && command[|command| - 1] == ' '
    ensures !ValidCommand(ParseCommand(command).0, ParseCommand(command).1)
  {
    TrailingSeparatorGivesEmptyPiece(command, ' ');
    var args := ParseCommand(command).1;
    assert args[|args| - 1] == "";
    assert args[|args| - 1] !in AllowedArgs;
  }

  /** A command that starts with a space has the empty program name. */
  lemma LeadingSpaceIsRejected(command: string)
    requires |command| >= 1 && command[0] == ' '
    ensures !ValidCommand(ParseCommand(command).0, ParseCommand(command).1)
  {
    FindFirstIs(command, {' '}, 0);
    assert ParseCommand(command).0 == "";
  }

  /** A program that was spawned, with its arguments. */
  datatype Command = Command(exec: string, args: seq<string>)

  /** How the promise `launchCommand` returns settles: with the first
      chunk of output, with an error message, or never. */
  datatype Settlement = Resolved(output: string) | Rejected(reason: string) | Pending

  /** The configuration entries `getConfig` reads. */
  datatype ConfigKey =
    | DatabaseSchema | DatabaseHost | DatabasePort | DatabaseUser | DatabasePassword
    | AwsBucket | GoogleMaps

  /** `configService.get(key)`: `None` stands for `undefined`. */
  function Lookup(config: map<ConfigKey, string>, key: ConfigKey): (v: Option<string>)
    ensures v.Some? <==> key in config
    ensures v.Some? ==> v.value == config[key]
  {
    if key in config then Some(config[key]) else None
  }

  /** A value interpolated into a template literal. */
  function Interpolated(v: Option<string>): (s: string)
    ensures v.Some? ==> s == v.value
    ensures v.None? ==> s == "undefined"
  {
    match v
    case Some(x) => x
    case None => "undefined"
  }

  /** The `sql` entry of the configuration. */
  function Sql(user: Option<string>, pwd: Option<string>, host: Option<string>,
               port: Option<string>, schema: Option<string>): (s: string)
    ensures StartsWith(s, "postgres://")
    ensures |s| >= 1 && s[|s| - 1] == ' '
  {
    var text := "postgres://" + Interpolated(user) + ":" + Interpolated(pwd) + "@"
      + Interpolated(host) + ":" + Interpolated(port) + "/" + Interpolated(schema) + " ";
    assert text[..11] == "postgres://";
    text
  }

  /** When every database entry is set and clean, the connection string is
      a URL whose userinfo carries the user and the password in clear text,
      whose host and port are the configured ones, and whose path ends with
      the trailing space. */
  lemma SqlAsUrl(user: string, pwd: string, host: string, port: string, schema: string)
    requires NoneOf(user, AuthorityEnd) && NoneOf(pwd, AuthorityEnd)
    requires host != [] && NoneOf(host, HostForbidden) && ValidPort(port)
    ensures ParseUrl(Sql(Some(user), Some(pwd), Some(host), Some(port), Some(schema)))
         == Some(Url("postgres", Some(user + ":" + pwd), host, Some(port), "/" + schema + " "))
  {
    var u := Url("postgres", Some(user + ":" + pwd), host, Some(port), "/" + schema + " ");
    assert NoneOf(":", AuthorityEnd);
    NoneOfConcat(user, ":", AuthorityEnd);
    NoneOfConcat(user + ":", pwd, AuthorityEnd);
    assert ValidScheme("postgres");
    assert WellFormed(u);
    SqlIsSerialized(u, user, pwd, schema);
    ParseSerialize(u);
  }

  lemma SqlIsSerialized(u: Url, user: string, pwd: string, schema: string)
    requires u.scheme == "postgres" && u.userinfo == Some(user + ":" + pwd) && u.port.Some?
    requires u.tail == "/" + schema + " "
    ensures Serialize(u) == Sql(Some(user), Some(pwd), Some(u.hostname), u.port, Some(schema))
  {
    var host := u.hostname;
    var port := u.port.value;
    var authority := user + ":" + pwd + "@" + (host + (":" + port));
    assert AuthorityText(AuthorityOf(u)) == authority;
    calc {
      Serialize(u);
      "postgres" + "://" + authority + ("/" + schema + " ");
      "postgres://" + user + ":" + pwd + "@" + host + ":" + port + "/" + schema + " ";
    }
  }

  /** The object `getConfig` returns: the fields a JavaScript object would
      have, with `None` for an `undefined` value. */
  class AppConfig {
    var fields: map<string, Option<string>>

    constructor(fields: map<string, Option<string>>)
      ensures this.fields == fields
    {
      this.fields := fields;
    }

    /** `delete config[key]`. */
    method Delete(key: string)
      modifies this
      ensures fields == old(fields) - {key}
    {
      fields := fields - {key};
    }
  }

  /** The fields `getConfig` builds from the configuration. */
  function ConfigFields(config: map<ConfigKey, string>): (m: map<string, Option<string>>)
    ensures m.Keys == {"awsBucket", "sql", "googlemaps"}
    ensures m["awsBucket"] == Lookup(config, AwsBucket)
    ensures m["googlemaps"] == Lookup(config, GoogleMaps)
    ensures m["sql"] == Some(Sql(Lookup(config, DatabaseUser), Lookup(config, DatabasePassword),
                                 Lookup(config, DatabaseHost), Lookup(config, DatabasePort),
                                 Lookup(config, DatabaseSchema)))
  {
    map[
      "awsBucket" := Lookup(config, AwsBucket),
      "sql" := Some(Sql(Lookup(config, DatabaseUser), Lookup(config, DatabasePassword),
                        Lookup(config, DatabaseHost), Lookup(config, DatabasePort),
                        Lookup(config, DatabaseSchema))),
      "googlemaps" := Lookup(config, GoogleMaps)
    ]
  }

  /** With every database entry set and clean, the reported `sql` field
      reads as a URL that carries the configured password in its userinfo. */
  lemma ConfigSqlLeaksPassword(config: map<ConfigKey, string>)
    requires DatabaseUser in config && DatabasePassword in config && DatabaseHost in config
    requires DatabasePort in config && DatabaseSchema in config
    requires NoneOf(config[DatabaseUser], AuthorityEnd) && NoneOf(config[DatabasePassword], AuthorityEnd)
    requires config[DatabaseHost] != [] && NoneOf(config[DatabaseHost], HostForbidden)
    requires ValidPort(config[DatabasePort])
    ensures ParseUrl(ConfigFields(config)["sql"].value)
         == Some(Url("postgres", Some(config[DatabaseUser] + ":" + config[DatabasePassword]),
                     config[DatabaseHost], Some(config[DatabasePort]), "/" + config[DatabaseSchema] + " "))
  {
    SqlAsUrl(config[DatabaseUser], config[DatabasePassword], config[DatabaseHost],
             config[DatabasePort], config[DatabaseSchema]);
  }

  class AppService {
    /** The values `ConfigService` hands out. */
    const config: map<ConfigKey, string>
    /** Every program `spawn` was called with, in order. */
    ghost var spawned: seq<Command>

    constructor(config: map<ConfigKey, string>)
      ensures this.config == config && spawned == []
    {
      this.config := config;
      spawned := [];
    }

    /** `isValidCommand`: the program and then each argument in turn. */
    method IsValidCommand(exec: string, args: seq<string>) returns (ok: bool)
      ensures ok <==> ValidCommand(exec, args)
    {
      if exec !in AllowedCommands {
        return false;
      }
      for i := 0 to |args|
        invariant forall k :: 0 <= k < i ==> args[k] in AllowedArgs
      {
        if args[i] !in AllowedArgs {
          return false;
        }
      }
      return true;
    }

    /** `launchCommand`: `spawn` is called only for a valid command, with
        the pieces of the split; `process` is how that spawned process
        settles the promise. */
    method LaunchCommand(command: string, process: Settlement) returns (r: Settlement)
      modifies this
      ensures var (exec, args) := ParseCommand(command);
        if ValidCommand(exec, args) then
          r == process && spawned == old(spawned) + [Command(exec, args)]
        else
          r == Rejected("Invalid command") && spawned == old(spawned)
    {
      var (exec, args) := ParseCommand(command);
      var ok := IsValidCommand(exec, args);
      if !ok {
        return Rejected("Invalid command");
      }
      spawned := spawned + [Command(exec, args)];
      return process;
    }

    /** `getConfig`: a new object holding the three reported fields. */
    method GetConfig() returns (c: AppConfig)
      ensures fresh(c) && c.fields == ConfigFields(config)
    {
      c := new AppConfig(ConfigFields(config));
    }
  }
}
