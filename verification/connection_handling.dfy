/** `mysql2_connection`: the configuration is normalised, the driver opens a
    client, and a driver error that names an unknown database becomes
    `NoDatabaseError`. */
module ConnectionHandling {
  import opened Wrappers
  import Strings
  import Bits
  import Mysql2Adapter

  /** The `:flags` entry: absent, an integer bitmask, or a list of flag names. */
  datatype Flags = Unset | Mask(bits: nat) | Names(names: seq<string>)

  /** A connection configuration: the two entries the adapter rewrites, and
      all others (host, password, database, ...) as they were given. */
  datatype Config = Config(username: Option<string>, flags: Flags, rest: map<string, string>)

  /** The flag mask of a configuration after `flags ||= 0`. */
  function MaskOf(f: Flags): nat
    requires !f.Names?
  {
    if f.Mask? then f.bits else 0
  }

  /** The configuration rewrite at the top of `mysql2_connection`.
      `foundRows` is `Mysql2::Client::FOUND_ROWS` when the driver defines it. */
  function Normalize(cfg: Config, foundRows: Option<nat>): (r: Config)
    ensures cfg.username.None? ==> r.username == Some("root")
    ensures cfg.username.Some? ==> r.username == cfg.username
    ensures r.rest == cfg.rest
    // a list of flag names gets "FOUND_ROWS" appended when the driver knows it
    ensures cfg.flags.Names? ==> r.flags.Names? && cfg.flags.names <= r.flags.names
    ensures cfg.flags.Names? && foundRows.None? ==> r.flags == cfg.flags
    ensures cfg.flags.Names? && foundRows.Some? ==> r.flags.names == cfg.flags.names + ["FOUND_ROWS"]
    // a mask (0 when absent) gets the FOUND_ROWS bits or-ed in, and nothing else
    ensures !cfg.flags.Names? ==> r.flags.Mask?
    ensures !cfg.flags.Names? ==> forall k: nat {:trigger Bits.HasBit(r.flags.bits, k)} ::
              Bits.HasBit(r.flags.bits, k) <==>
                Bits.HasBit(MaskOf(cfg.flags), k) || (foundRows.Some? && Bits.HasBit(foundRows.value, k))
    ensures cfg.flags.Unset? && foundRows.None? ==> r.flags == Mask(0)
    ensures cfg.flags.Unset? && foundRows.Some? ==> r.flags == Mask(foundRows.value)
  {
    var username := if cfg.username.None? then Some("root") else cfg.username;
    var flags :=
      match cfg.flags
      case Names(names) => if foundRows.Some? then Names(names + ["FOUND_ROWS"]) else cfg.flags
      case _ =>
        var mask := MaskOf(cfg.flags);
        if foundRows.Some? then
          assert forall k: nat :: Bits.HasBit(Bits.Or(mask, foundRows.value), k) <==>
                   Bits.HasBit(mask, k) || Bits.HasBit(foundRows.value, k) by {
            forall k: nat ensures Bits.HasBit(Bits.Or(mask, foundRows.value), k) <==>
                                  Bits.HasBit(mask, k) || Bits.HasBit(foundRows.value, k) {
              Bits.OrBits(mask, foundRows.value, k);
            }
          }
          Bits.OrZero(foundRows.value);
          Mask(Bits.Or(mask, foundRows.value))
        else Mask(mask);
    Config(username, flags, cfg.rest)
  }

  /** Normalising a mask configuration twice is normalising it once. */
  lemma NormalizeMaskIdempotent(cfg: Config, foundRows: Option<nat>)
    requires !cfg.flags.Names?
    ensures Normalize(Normalize(cfg, foundRows), foundRows) == Normalize(cfg, foundRows)
  {
    if foundRows.Some? {
      Bits.OrAbsorbs(MaskOf(cfg.flags), foundRows.value);
    }
  }

  /** A list of flag names is not normalised idempotently: each pass appends
      "FOUND_ROWS" again. */
  lemma NormalizeNamesAppendsEachTime(cfg: Config, found: nat)
    requires cfg.flags.Names?
    ensures |Normalize(Normalize(cfg, Some(found)), Some(found)).flags.names| == |cfg.flags.names| + 2
  {
  }

  /** What `Mysql2::Client.new(config)` does: hands back a client, or raises
      `Mysql2::Error` with a message and perhaps an error number. */
  datatype ClientOutcome = Opened(client: Mysql2Adapter.Client) | Refused(message: string, errorNumber: Option<int>)

  /** The exception is a driver error whose message contains "Unknown database". */
  ghost predicate NamesUnknownDatabase(e: Mysql2Adapter.Exception) {
    e.Mysql2Error? && exists i :: Strings.OccursAt(e.message, "Unknown database", i)
  }

  /** The method-level `rescue Mysql2::Error`: a driver error naming an
      unknown database becomes `NoDatabaseError`; every other exception is
      raised again as it was. */
  function Rescue(e: Mysql2Adapter.Exception): (r: Mysql2Adapter.Exception)
    ensures NamesUnknownDatabase(e) ==> r == Mysql2Adapter.NoDatabaseError
    ensures !NamesUnknownDatabase(e) ==> r == e
  {
    if e.Mysql2Error? then
      Strings.ContainsIffOccurs(e.message, "Unknown database");
      if Strings.Contains(e.message, "Unknown database") then Mysql2Adapter.NoDatabaseError else e
    else e
  }

  /** `mysql2_connection(config)`: normalise, open a client with the
      normalised configuration, and wrap it in an adapter. `setup` is what the
      generic part of building the adapter does (the generic `initialize` and
      the generic half of `configure_connection`): nothing, or the exception
      it raises. The `rescue` covers both steps; a client opened before the
      setup fails is not closed. */
  function Connect(cfg: Config, foundRows: Option<nat>, open: Config -> ClientOutcome,
                   setup: Option<Mysql2Adapter.Exception>):
    (r: Result<Mysql2Adapter.Adapter, Mysql2Adapter.Exception>)
    ensures r.Success? <==> open(Normalize(cfg, foundRows)).Opened? && setup.None?
    ensures r.Success? ==> r.value == Mysql2Adapter.NewAdapter(open(Normalize(cfg, foundRows)).client)
    ensures r.Success? ==> Mysql2Adapter.Valid(r.value)
    // a refusal naming an unknown database means NoDatabaseError ...
    ensures open(Normalize(cfg, foundRows)).Refused? ==>
              (r == Failure(Mysql2Adapter.NoDatabaseError) <==>
                 exists i :: Strings.OccursAt(open(Normalize(cfg, foundRows)).message, "Unknown database", i))
    // ... and any other refusal is raised again as it was
    ensures open(Normalize(cfg, foundRows)).Refused? && r != Failure(Mysql2Adapter.NoDatabaseError) ==>
              var o := open(Normalize(cfg, foundRows));
              r == Failure(Mysql2Adapter.Mysql2Error(o.message, o.errorNumber))
    // an error while setting up the adapter goes through the same rescue
    ensures open(Normalize(cfg, foundRows)).Opened? && setup.Some? ==>
              r.Failure? &&
              (r.error == Mysql2Adapter.NoDatabaseError <==>
                 NamesUnknownDatabase(setup.value) || setup.value == Mysql2Adapter.NoDatabaseError)
    ensures open(Normalize(cfg, foundRows)).Opened? && setup.Some? && !NamesUnknownDatabase(setup.value) ==>
              r == Failure(setup.value)
  {
    match open(Normalize(cfg, foundRows))
    case Opened(client) =>
      if setup.None? then Success(Mysql2Adapter.NewAdapter(client)) else Failure(Rescue(setup.value))
    case Refused(message, errorNumber) => Failure(Rescue(Mysql2Adapter.Mysql2Error(message, errorNumber)))
  }

  /** `error_number` on what `mysql2_connection` raises: a refusal raised
      again keeps the driver's error number, while `NoDatabaseError` carries
      none. */
  lemma ConnectErrorNumbers(cfg: Config, foundRows: Option<nat>, open: Config -> ClientOutcome,
                            setup: Option<Mysql2Adapter.Exception>)
    ensures var r := Connect(cfg, foundRows, open, setup);
            r == Failure(Mysql2Adapter.NoDatabaseError) ==> Mysql2Adapter.ErrorNumber(r.error).None?
    ensures var r := Connect(cfg, foundRows, open, setup);
            var o := open(Normalize(cfg, foundRows));
            o.Refused? && r != Failure(Mysql2Adapter.NoDatabaseError) ==>
              r.Failure? && Mysql2Adapter.ErrorNumber(r.error) == o.errorNumber
  {
  }
}
