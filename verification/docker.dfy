/**
 The container lifecycle of internal/judge/docker.go. Every docker command may fail: a failed create may still have
 created the container, and a failed removal may or may not have removed it. Programs behave arbitrarily.
 */
module Docker {
  import opened Basics
  import opened Judging

  type Name = nat

  /** One command run in a container: the container's memory, the time allowed, and what the command reads. */
  datatype Execution = Execution(memoryMb: int, limitMs: int, input: string)

  /** The containers of one worker slot, as the Docker daemon has them. */
  class Daemon {
    var live: set<Name>
    var names: nat              // names handed out so far; random names do not repeat
    ghost var born: set<Name>   // every container that ever existed
    ghost var tried: set<Name>  // every name whose removal was attempted
    ghost var peak: nat         // the most containers that ever existed at once
    ghost var executed: seq<Execution>

    ghost predicate Valid()
      reads this
    {
      live <= born && |live| <= peak && forall n :: n in born || n in tried ==> n < names
    }

    constructor ()
      ensures Valid() && live == {} && born == {} && tried == {} && peak == 0 && executed == []
    {
      live, names, born, tried, peak, executed := {}, 0, {}, {}, 0, [];
    }

    method NewName() returns (name: Name)
      requires Valid()
      modifies this`names
      ensures Valid() && name !in born && name !in tried && name < names
    {
      name := names;
      names := names + 1;
    }

    /** docker create: success means that the container exists; failure leaves it open. */
    method Create(name: Name) returns (ok: bool)
      requires Valid() && name < names && name !in born && name !in tried
      modifies this`live, this`born, this`peak
      ensures Valid()
      ensures ok ==> live == old(live) + {name}
      ensures live == old(live) || live == old(live) + {name}
      ensures born == old(born) + live
      ensures peak <= Max(old(peak), |old(live)| + 1)
    {
      var made: bool := *;
      ok := *;
      ok := ok && made;
      if made {
        live := live + {name};
        born := born + {name};
        peak := Max(peak, |live|);
      }
      assert born == old(born) + live;
    }

    /** docker rm -f: success means that the container is gone; failure leaves it open. */
    method Remove(name: Name) returns (ok: bool)
      requires Valid() && name < names
      modifies this`live, this`tried
      ensures Valid()
      ensures ok ==> live == old(live) - {name}
      ensures live == old(live) || live == old(live) - {name}
      ensures tried == old(tried) + {name}
    {
      var gone: bool := *;
      ok := *;
      ok := ok && gone;
      if gone {
        live := live - {name};
      }
      tried := tried + {name};
    }

    /** Any other command, /proc or cgroup read: it works or it does not. */
    method Control() returns (ok: bool) {
      ok := *;
    }

    /** Starting a container: start, inspect with a usable PID, and a cgroup v2 path with readable counters. */
    method Prepare() returns (ok: bool) {
      ok := Control();
      if ok {
        ok := Control();
      }
      if ok {
        ok := Control();
      }
    }

    /** Running a command in a container, up to the metrics read afterwards. */
    method Execute(memoryMb: int, limitMs: int, input: string) returns (out: Outcome, ok: bool)
      modifies this`executed
      ensures executed == old(executed) + [Execution(memoryMb, limitMs, input)]
    {
      executed := executed + [Execution(memoryMb, limitMs, input)];
      ok := *;
      out := *;
    }
  }

  /** What one evaluation owes: everything it created has had a removal attempt, except what it still holds. */
  ghost predicate Accounted(base: set<Name>, bornBefore: set<Name>, d: Daemon, held: set<Name>)
    reads d
  {
    && d.Valid()
    && held !! base && held <= d.born
    && base <= d.live <= base + held + d.tried
    && d.born - bornBefore <= d.tried + held
  }

  /** createContainer: on any failure after the name is chosen, the named container gets a removal attempt. */
  method CreateContainer(d: Daemon, validImage: bool, memoryMb: int) returns (c: Reply<Name>)
    requires d.Valid()
    modifies d
    ensures c.Ok? ==> c.value !in old(d.live) && c.value !in old(d.born) && d.live == old(d.live) + {c.value}
    ensures c == Err(Invalid) <==> !validImage || memoryMb < 32 || memoryMb > 512
    ensures Accounted(old(d.live), old(d.born), d, if c.Ok? then {c.value} else {})
    ensures old(d.tried) <= d.tried && old(d.born) <= d.born && d.peak <= Max(old(d.peak), |old(d.live)| + 1)
    ensures d.executed == old(d.executed)
  {
    if !validImage || !MemoryInRange(memoryMb) {
      return Err(Invalid);
    }
    var name := d.NewName();
    var ok := d.Create(name);
    if ok {
      ok := d.Prepare();
    }
    if !ok {
      var _ := d.Remove(name);
      return Err(Unavailable);
    }
    return Ok(name);
  }

  /** dockerSandbox: a compile container, then one fresh container for each run. */
  class Sandbox {
    const d: Daemon
    const cpp: bool
    const memoryMb: int
    const limitMs: int
    var compile: Option<Name>

    constructor (d: Daemon, c: Name, cpp: bool, memoryMb: int, limitMs: int)
      ensures this.d == d && compile == Some(c) && this.cpp == cpp
      ensures this.memoryMb == memoryMb && this.limitMs == limitMs
    {
      this.d, this.cpp, this.memoryMb, this.limitMs, compile := d, cpp, memoryMb, limitMs, Some(c);
    }

    ghost function Held(): set<Name>
      reads this
    {
      if compile.Some? then {compile.value} else {}
    }

    /** Nothing of this evaluation exists beyond the compile container. */
    ghost predicate Holds(base: set<Name>, bornBefore: set<Name>)
      reads this, d
    {
      && Accounted(base, bornBefore, d, Held())
      && d.live <= base + Held()
    }

    method Compile(ghost base: set<Name>, ghost bornBefore: set<Name>) returns (reply: Reply<Outcome>)
      requires compile.Some? && Holds(base, bornBefore)
      modifies this, d
      ensures Holds(base, bornBefore)
      ensures reply.Ok? && !CompileFailed(reply.value) ==> compile == None
      ensures compile == None || compile == old(compile)
      ensures old(d.tried) <= d.tried && old(d.born) <= d.born && d.peak == old(d.peak)
      ensures d.executed == old(d.executed) + [Execution(256, 15 * 1000, "")]
    {
      var out, ok := d.Execute(256, 15 * 1000, "");
      if !ok {
        return Err(Unavailable);
      }
      if out.exitCode != 0 || out.timedOut || out.oom || out.outputLimited {
        return Ok(out);
      }
      if cpp {
        ok := d.Control();  // the compiled artifact, checked and repacked
        if !ok {
          return Err(Unavailable);
        }
      }
      ok := d.Remove(compile.value);
      if !ok {
        return Err(Unavailable);
      }
      compile := None;
      return Ok(out);
    }

    method Run(input: string, ghost base: set<Name>, ghost bornBefore: set<Name>) returns (reply: Reply<Outcome>)
      requires compile == None && Holds(base, bornBefore)
      modifies d
      ensures Accounted(base, bornBefore, d, {})
      ensures reply.Ok? ==> Holds(base, bornBefore)
      ensures reply.Ok? ==> d.executed == old(d.executed) + [Execution(memoryMb, limitMs, input)]
      ensures reply == Err(Invalid) <==> Utf8Length(input) > 65536 || memoryMb < 32 || memoryMb > 512
      ensures old(d.tried) <= d.tried && old(d.born) <= d.born && d.peak <= Max(old(d.peak), |base| + 1)
    {
      assert d.live == base;
      if Utf8Length(input) > 65536 {
        return Err(Invalid);
      }
      var c := CreateContainer(d, true, memoryMb);
      if c.Err? {
        return Err(c.error);
      }
      var ok := d.Control();  // upload
      var out;
      if ok {
        out, ok := d.Execute(memoryMb, limitMs, input);
      }
      var closed := d.Remove(c.value);
      if !ok || !closed {
        return Err(Unavailable);
      }
      return Ok(out);
    }

    /** Close removes an unfinished compile container; it succeeds when nothing is left to remove. */
    method Close(ghost base: set<Name>, ghost bornBefore: set<Name>) returns (ok: bool)
      requires Accounted(base, bornBefore, d, Held())
      modifies this, d
      ensures Accounted(base, bornBefore, d, {})
      ensures ok && old(Holds(base, bornBefore)) ==> d.live == base
      ensures old(d.tried) <= d.tried && d.born == old(d.born) && d.peak == old(d.peak)
      ensures d.executed == old(d.executed)
    {
      if compile == None {
        return true;
      }
      ok := d.Remove(compile.value);
      if ok {
        compile := None;
      }
    }
  }

  /** The sandbox runs programs within the limits of the job. */
  predicate IsFor(s: Sandbox, job: Job) {
    s.memoryMb == job.problem.memoryLimitMb && s.limitMs == job.problem.timeLimitMs
  }

  /** DockerFactory.Open. */
  method Open(d: Daemon, job: Job, validImage: bool) returns (s: Reply<Sandbox>)
    requires d.Valid()
    modifies d
    ensures s.Err? ==> Accounted(old(d.live), old(d.born), d, {})
    ensures s != Err(Invalid) <==>
      && validImage && (job.language == "python" || job.language == "cpp") && 1 <= Utf8Length(job.source) <= 65536
      && 100 <= job.problem.timeLimitMs <= 10000 && 32 <= job.problem.memoryLimitMb <= 512
    ensures s.Ok? ==>
        fresh(s.value) && s.value.d == d && s.value.compile.Some? && s.value.Holds(old(d.live), old(d.born))
    ensures s.Ok? ==> IsFor(s.value, job) && (s.value.cpp <==> job.language == "cpp")
    ensures d.executed == old(d.executed)
    ensures old(d.tried) <= d.tried && old(d.born) <= d.born && d.peak <= Max(old(d.peak), |old(d.live)| + 1)
  {
    if !Executable(job.language, job.source, job.problem) || !validImage || !MemoryInRange(job.problem.memoryLimitMb) {
      return Err(Invalid);
    }
    var c := CreateContainer(d, validImage, 256);
    if c.Err? {
      return Err(c.error);
    }
    var ok := d.Control();  // upload
    if !ok {
      var _ := d.Remove(c.value);
      return Err(Unavailable);
    }
    var sandbox := new Sandbox(d, c.value, job.language == "cpp", job.problem.memoryLimitMb, job.problem.timeLimitMs);
    return Ok(sandbox);
  }
}
