/** The manager: named instances and the parameters they were created with, and
    the all-or-nothing configuration of many at once. */
module Registry {
  import opened Errors
  import opened Settings
  import Bucket

  datatype Name = Name(text: string)

  /** The positional parameters. */
  datatype BreakerConfig = BreakerConfig(maxConcurrent: int, maxRequests: int, windowSeconds: int, maxRetries: int)

  datatype BreakerSpec = BreakerSpec(config: BreakerConfig, options: seq<Setting>)

  type Specs = map<Name, BreakerSpec>

  /** One without the other would switch the rate limit off silently. */
  predicate Consistent(c: BreakerConfig) { (c.maxRequests > 0) == (c.windowSeconds > 0) }

  /** A specification fits a registry when it is consistent and its positional
      parameters do not diverge from what its name is registered with. */
  predicate Fits(cfg: map<Name, BreakerConfig>, name: Name, want: BreakerSpec) {
    Consistent(want.config) && (name in cfg ==> cfg[name] == want.config)
  }

  predicate AllFit(cfg: map<Name, BreakerConfig>, specs: Specs) {
    forall name | name in specs :: Fits(cfg, name, specs[name])
  }

  function Configs(specs: Specs): map<Name, BreakerConfig> { map n | n in specs :: specs[n].config }

  /** The parameters registered once all specifications have been accepted. */
  function Merged(cfg: map<Name, BreakerConfig>, specs: Specs): map<Name, BreakerConfig> { Configs(specs) + cfg }

  lemma MergedIs(was: map<Name, BreakerConfig>, now: map<Name, BreakerConfig>, specs: Specs)
    requires now.Keys == was.Keys + specs.Keys
    requires forall n | n in was :: now[n] == was[n]
    requires forall n | n in specs && n !in was :: now[n] == specs[n].config
    ensures now == Merged(was, specs)
  {
  }

  // -------------------------------------------------------------------------
  // The registry as a value. An instance is known by its name and its birth, the
  // number of the call of the manager that made it.

  datatype Instance = Instance(birth: nat, options: seq<Setting>)

  datatype Registered = Registered(cb: map<Name, Instance>, cfg: map<Name, BreakerConfig>, calls: nat)

  const NOBODY := Registered(map[], map[], 0)

  datatype Op =
    | Create(name: Name, config: BreakerConfig)
    | CreateStrict(name: Name, config: BreakerConfig)
    | Configure(specs: Specs)
    | Remove(name: Name)

  function Births(specs: Specs, birth: nat): map<Name, Instance> {
    map n | n in specs :: Instance(birth, specs[n].options)
  }

  /** Existing instances stay as they are: their options are not applied again. */
  function Do(r: Registered, op: Op): Registered {
    var next := r.(calls := r.calls + 1);
    match op
    case Create(n, config) =>
      if n in r.cb then next
      else next.(cb := r.cb[n := Instance(r.calls, [])], cfg := r.cfg[n := config])
    case CreateStrict(n, config) =>
      if n in r.cb then next
      else next.(cb := r.cb[n := Instance(r.calls, [])], cfg := r.cfg[n := config])
    case Configure(specs) =>
      if AllFit(r.cfg, specs) then next.(cb := Births(specs, r.calls) + r.cb, cfg := Merged(r.cfg, specs)) else next
    case Remove(n) => next.(cb := r.cb - {n}, cfg := r.cfg - {n})
  }

  /** Whether the call of the manager succeeds. */
  predicate Accepts(r: Registered, op: Op) {
    match op
    case CreateStrict(n, config) => n in r.cfg ==> r.cfg[n] == config
    case Configure(specs) => AllFit(r.cfg, specs)
    case _ => true
  }

  function DoAll(r: Registered, ops: seq<Op>): Registered
    decreases |ops|
  {
    if ops == [] then r else DoAll(Do(r, ops[0]), ops[1..])
  }

  ghost predicate Inv(r: Registered) {
    && r.cb.Keys == r.cfg.Keys
    && forall n | n in r.cb :: r.cb[n].birth < r.calls
  }

  lemma DoKeepsInv(r: Registered, op: Op)
    requires Inv(r)
    ensures Inv(Do(r, op))
  {
  }

  predicate Spares(ops: seq<Op>, n: Name) { forall op | op in ops :: op != Remove(n) }

  /** Over any sequence of calls: the maps stay paired, and a registered name
      keeps its instance and its parameters as long as it is not removed. */
  lemma {:induction false} NamesKeepInstances(r: Registered, ops: seq<Op>, n: Name)
    requires Inv(r) && n in r.cb && Spares(ops, n)
    ensures var d := DoAll(r, ops); Inv(d) && n in d.cb && d.cb[n] == r.cb[n] && d.cfg[n] == r.cfg[n]
    decreases |ops|
  {
    if ops != [] {
      assert ops[0] in ops;
      DoKeepsInv(r, ops[0]);
      assert Spares(ops[1..], n) by {
        forall op | op in ops[1..] ensures op in ops {}
      }
      hide Inv;
      NamesKeepInstances(Do(r, ops[0]), ops[1..], n);
    }
  }

  lemma {:induction false} AlwaysPaired(r: Registered, ops: seq<Op>)
    requires Inv(r)
    ensures Inv(DoAll(r, ops)) && r.calls <= DoAll(r, ops).calls
    decreases |ops|
  {
    if ops != [] {
      DoKeepsInv(r, ops[0]);
      AlwaysPaired(Do(r, ops[0]), ops[1..]);
    }
  }

  /** A name registered again after its removal has another instance, whatever
      else happens. */
  lemma RemovalIsFinal(r: Registered, n: Name, ops: seq<Op>)
    requires Inv(r) && n in r.cb
    ensures var d := DoAll(Do(r, Remove(n)), ops); n in d.cb ==> d.cb[n] != r.cb[n]
  {
    DoKeepsInv(r, Remove(n));
    BornLater(Do(r, Remove(n)), n, ops, r.calls);
  }

  lemma {:induction false} BornLater(r: Registered, n: Name, ops: seq<Op>, since: nat)
    requires Inv(r) && since <= r.calls && (n in r.cb ==> since <= r.cb[n].birth)
    ensures var d := DoAll(r, ops); n in d.cb ==> since <= d.cb[n].birth
    decreases |ops|
  {
    if ops != [] {
      DoKeepsInv(r, ops[0]);
      BornLater(Do(r, ops[0]), n, ops[1..], since);
    }
  }

  /** Once specifications have been accepted they are accepted again, whatever
      happens in between short of removing one of their names, and then they
      change nothing and lead to the same instances. */
  lemma ConfigureIsIdempotent(r: Registered, specs: Specs, ops: seq<Op>)
    requires Inv(r) && AllFit(r.cfg, specs) && forall n | n in specs :: Spares(ops, n)
    ensures var once := Do(r, Configure(specs));
            var later := DoAll(once, ops);
            var again := Do(later, Configure(specs));
            && Accepts(later, Configure(specs)) && again.cb == later.cb && again.cfg == later.cfg
            && forall n | n in specs :: n in again.cb && again.cb[n] == once.cb[n] && again.cfg[n] == specs[n].config
  {
    var once := Do(r, Configure(specs));
    var later := DoAll(once, ops);
    DoKeepsInv(r, Configure(specs));
    forall n | n in specs
      ensures n in later.cb && n in later.cfg && later.cb[n] == once.cb[n] && later.cfg[n] == specs[n].config
      ensures Fits(later.cfg, n, specs[n])
    {
      assert Fits(r.cfg, n, specs[n]);
      NamesKeepInstances(once, ops, n);
    }
    AlwaysPaired(once, ops);
    assert Births(specs, later.calls) + later.cb == later.cb;
    assert Merged(later.cfg, specs) == later.cfg;
  }

  /** Which specifications are accepted: none diverges from what its name is
      registered with, and each that mentions a rate gets a bucket, whatever its
      burst. */
  lemma AcceptedIff(r: Registered, specs: Specs, burst: int)
    ensures Accepts(r, Configure(specs))
            <==> forall n | n in specs ::
                   var c := specs[n].config;
                   && (n in r.cfg ==> r.cfg[n] == c)
                   && (c.maxRequests > 0 || c.windowSeconds > 0 ==>
                         Bucket.MakePlan(c.maxRequests, c.windowSeconds, burst).Some?)
  {
    forall n | n in specs
      ensures Consistent(specs[n].config)
              <==> (specs[n].config.maxRequests > 0 || specs[n].config.windowSeconds > 0 ==>
                      Bucket.MakePlan(specs[n].config.maxRequests, specs[n].config.windowSeconds, burst).Some?)
    {
      Bucket.SizeOfEveryBucket(specs[n].config.maxRequests, specs[n].config.windowSeconds, burst);
      hide Bucket.MakePlan;
    }
    hide Bucket.MakePlan;
  }

  /** A name that was free is registered with what was asked for. */
  lemma NewNamesGetWhatIsAskedFor(r: Registered, n: Name, config: BreakerConfig, specs: Specs)
    requires Inv(r) && n !in r.cb
    ensures var d := Do(r, Create(n, config)); n in d.cb && d.cfg[n] == config && d.cb[n] == Instance(r.calls, [])
    ensures Do(r, CreateStrict(n, config)) == Do(r, Create(n, config))
    ensures n in specs && Accepts(r, Configure(specs)) ==>
              var d := Do(r, Configure(specs));
              n in d.cb && d.cfg[n] == specs[n].config && d.cb[n] == Instance(r.calls, specs[n].options)
  {
  }

  // -------------------------------------------------------------------------
  // The objects

  class CircuitBreaker {
    const name: Name
    const config: BreakerConfig
    const options: seq<Setting>
    ghost const birth: nat
    var stopped: bool

    constructor (name: Name, config: BreakerConfig, options: seq<Setting>, ghost birth: nat)
      ensures this.name == name && this.config == config && this.options == options && this.birth == birth && !stopped
    {
      this.name, this.config, this.options, this.birth, stopped := name, config, options, birth, false;
    }

    ghost function Value(): Instance { Instance(birth, options) }

    method Stop()
      modifies this
      ensures stopped
    {
      stopped := true;
    }
  }

  class Manager {
    var cb: map<Name, CircuitBreaker>
    var cfg: map<Name, BreakerConfig>

    ghost var reg: Registered

    /** The maps hold what the calls of the manager made of empty ones. */
    ghost predicate Valid()
      reads this
    {
      && Inv(reg) && cfg == reg.cfg && cb.Keys == reg.cb.Keys
      && forall n | n in cb :: cb[n].Value() == reg.cb[n] && cb[n].name == n && cb[n].config == cfg[n]
    }

    constructor ()
      ensures Valid() && reg == NOBODY
    {
      cb, cfg, reg := map[], map[], NOBODY;
    }

    /** Puts a new instance under a free name. */
    method Register(name: Name, want: BreakerConfig, options: seq<Setting>) returns (b: CircuitBreaker)
      requires name !in cb
      modifies this`cb, this`cfg
      ensures fresh(b) && b.Value() == Instance(reg.calls, options) && b.name == name && b.config == want
      ensures cb == old(cb)[name := b] && cfg == old(cfg)[name := want]
    {
      b := new CircuitBreaker(name, want, options, reg.calls);
      cb := cb[name := b];
      cfg := cfg[name := want];
    }

    /** A registered name keeps its instance, whatever the parameters asked for. */
    method NewCircuitBreaker(name: Name, want: BreakerConfig) returns (b: CircuitBreaker)
      requires Valid()
      modifies this
      ensures Valid() && reg == Do(old(reg), Create(name, want))
      ensures name in cb && b == cb[name] && b.name == name
      ensures name in old(cb) ==> cb == old(cb)
      ensures name !in old(cb) ==> fresh(b) && cb == old(cb)[name := b] && b.config == want && b.options == []
    {
      DoKeepsInv(reg, Create(name, want));
      if name in cb {
        b := cb[name];
      } else {
        b := Register(name, want, []);
      }
      reg := Do(reg, Create(name, want));
    }

    /** As above, but parameters that diverge are an error that changes nothing. */
    method NewCircuitBreakerStrict(name: Name, want: BreakerConfig) returns (b: Option<CircuitBreaker>)
      requires Valid()
      modifies this
      ensures Valid() && reg == Do(old(reg), CreateStrict(name, want))
      ensures b.Some? <==> Accepts(old(reg), CreateStrict(name, want))
      ensures b.Some? ==> name in cb && b.value == cb[name] && b.value.config == want
      ensures b.None? || name in old(cb) ==> cb == old(cb) && cfg == old(cfg)
      ensures name !in old(cb) ==>
                b.Some? && fresh(b.value) && cb == old(cb)[name := b.value] && b.value.options == []
    {
      DoKeepsInv(reg, CreateStrict(name, want));
      if name in cb {
        b := if cfg[name] != want then None else Some(cb[name]);
      } else {
        var made := Register(name, want, []);
        b := Some(made);
      }
      reg := Do(reg, CreateStrict(name, want));
    }

    /** Takes the instance out of both maps and stops it. */
    method Remove(name: Name)
      requires Valid()
      modifies this, if name in cb then {cb[name]} else {}
      ensures Valid() && reg == Do(old(reg), Op.Remove(name))
      ensures cb == old(cb) - {name}
      ensures name in old(cb) ==> old(cb[name]).stopped
    {
      DoKeepsInv(reg, Op.Remove(name));
      if name in cb {
        var b := cb[name];
        cb := cb - {name};
        cfg := cfg - {name};
        b.Stop();
      } else {
        assert cb == cb - {name} && cfg == cfg - {name} && reg.cb == reg.cb - {name};
      }
      reg := Do(reg, Op.Remove(name));
    }

    /** `ConfigureManager`: either some specification does not fit and nothing
        changes, or every name is registered as specified: old instances stay and
        new ones are created with their options, whatever the order of the names. */
    method Configure(specs: Specs) returns (out: Option<map<Name, CircuitBreaker>>)
      requires Valid()
      modifies this
      ensures Valid() && reg == Do(old(reg), Op.Configure(specs))
      ensures out.Some? <==> AllFit(old(cfg), specs)
      ensures out.None? ==> cb == old(cb) && cfg == old(cfg)
      ensures out.Some? ==>
                && out.value.Keys == specs.Keys && (forall n | n in specs :: out.value[n] == cb[n])
                && (forall n | n in old(cb) :: cb[n] == old(cb)[n])
                && (forall n | n in specs && n !in old(cb) ::
                      fresh(cb[n]) && cb[n].config == specs[n].config && cb[n].options == specs[n].options)
    {
      DoKeepsInv(reg, Op.Configure(specs));
      var fit := Validate(specs);
      if fit {
        var made := Fulfil(specs);
        out := Some(made);
      } else {
        out := None;
        reg := Do(reg, Op.Configure(specs));
      }
    }

    method Fulfil(specs: Specs) returns (made: map<Name, CircuitBreaker>)
      requires Valid() && AllFit(cfg, specs) && Inv(Do(reg, Op.Configure(specs)))
      modifies this
      ensures Valid() && reg == Do(old(reg), Op.Configure(specs))
      ensures made.Keys == specs.Keys && (forall n | n in specs :: made[n] == cb[n])
      ensures forall n | n in old(cb) :: cb[n] == old(cb)[n]
      ensures forall n | n in specs && n !in old(cb) ::
                fresh(cb[n]) && cb[n].config == specs[n].config && cb[n].options == specs[n].options
    {
      made := CreateMissing(specs);
      MergedIs(old(cfg), cfg, specs);
      reg := Do(reg, Op.Configure(specs));
      hide AllFit, Inv, Merged;
    }

    /** The first phase. */
    method Validate(specs: Specs) returns (fit: bool)
      requires cb.Keys == cfg.Keys
      ensures fit <==> AllFit(cfg, specs)
    {
      var todo := specs.Keys;
      while todo != {}
        invariant todo <= specs.Keys
        invariant forall n | n in specs && n !in todo :: Fits(cfg, n, specs[n])
        decreases todo
      {
        var name :| name in todo;
        var want := specs[name].config;
        if (want.maxRequests > 0) != (want.windowSeconds > 0) {
          assert !Fits(cfg, name, specs[name]);
          return false;
        }
        if name in cb && cfg[name] != want {
          assert !Fits(cfg, name, specs[name]);
          return false;
        }
        todo := todo - {name};
      }
      return true;
    }

    /** The second phase. */
    method CreateMissing(specs: Specs) returns (made: map<Name, CircuitBreaker>)
      requires cb.Keys == cfg.Keys
      modifies this`cb, this`cfg
      ensures cb.Keys == cfg.Keys == old(cb.Keys) + specs.Keys
      ensures made.Keys == specs.Keys && forall n | n in specs :: made[n] == cb[n]
      ensures forall n | n in old(cb) :: cb[n] == old(cb)[n] && cfg[n] == old(cfg)[n]
      ensures forall n | n in specs && n !in old(cb) :: fresh(cb[n]) && Made(specs, n)
    {
      made := map[];
      var todo := specs.Keys;
      while todo != {}
        invariant todo <= specs.Keys && made.Keys == specs.Keys - todo
        invariant cb.Keys == cfg.Keys == old(cb.Keys) + made.Keys
        invariant forall n | n in made :: made[n] == cb[n]
        invariant forall n | n in old(cb) :: cb[n] == old(cb)[n] && cfg[n] == old(cfg)[n]
        invariant forall n | n in made && n !in old(cb) :: fresh(cb[n]) && Made(specs, n)
        decreases todo
      {
        var name :| name in todo;
        if name !in cb {
          var _ := Register(name, specs[name].config, specs[name].options);
        }
        made := made[name := cb[name]];
        todo := todo - {name};
      }
    }

    /** The instance under this name is the one its specification asks for. */
    ghost predicate Made(specs: Specs, n: Name)
      reads this
      requires n in specs && n in cb && n in cfg
    {
      && cb[n].Value() == Instance(reg.calls, specs[n].options)
      && cb[n].name == n && cb[n].config == specs[n].config == cfg[n]
    }
  }
}
