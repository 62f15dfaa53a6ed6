/** The command buffer, modelled as an append-only log of abstract commands.
    Render targets are named by integer shader property IDs; the engine's
    temporary-target pool is reduced to the set of IDs currently held. */
module Commands {

  datatype LoadAction = Load | DontCare

  datatype RenderQueue = Opaque | Transparent

  datatype Command =
    | Acquire(id: int, width: int, height: int)        // GetTemporaryRT
    | Release(id: int)                                  // ReleaseTemporaryRT
    | SetRenderTarget(target: int, load: LoadAction)
    | SetRenderTargets(color: int, depth: int, load: LoadAction)
    | ClearTarget(clearDepth: bool, clearColor: bool)
    | Viewport(x: int, y: int, size: int)
    | DrawShadows(visibleLightIndex: nat, slice: nat)   // context.DrawShadows for one tile
    | Draw(from: int, to: int, pass: nat)               // full-screen triangle into a temporary target
    | DrawFinal(from: int, pass: nat, load: LoadAction) // full-screen triangle into the camera target
    | CopyTexture(from: int, to: int)
    | DrawGeometry(queue: RenderQueue)                  // context.DrawRenderers
    | DrawSkybox
    | SetTexture(name: string, id: int)
    | SetInt(name: string, value: int)
    | SetFloat(name: string, amount: real)
    | SetArray(name: string)                            // upload of a per-light array
    | SetVector(name: string)                           // upload of a global vector
    | DepthBias(slopeScale: real)                       // SetGlobalDepthBias(0, slopeScale)
    | EnableKeyword(keyword: string)
    | DisableKeyword(keyword: string)

  /** Whether a command touches the temporary-target pool. */
  predicate IsPoolCommand(c: Command) {
    c.Acquire? || c.Release?
  }

  /** A log that acquires nothing and releases nothing. */
  predicate PoolFree(log: seq<Command>) {
    forall k :: 0 <= k < |log| ==> !IsPoolCommand(log[k])
  }

  /** The targets held after running `log` from the pool state `held`. */
  function After(held: set<int>, log: seq<Command>): set<int>
    decreases |log|
  {
    if log == [] then held
    else
      match log[0]
      case Acquire(id, _, _) => After(held + {id}, log[1..])
      case Release(id) => After(held - {id}, log[1..])
      case _ => After(held, log[1..])
  }

  /** Every acquire names a target not already held, every release one that is held. */
  predicate Scoped(held: set<int>, log: seq<Command>)
    decreases |log|
  {
    if log == [] then true
    else
      match log[0]
      case Acquire(id, _, _) => id !in held && Scoped(held + {id}, log[1..])
      case Release(id) => id in held && Scoped(held - {id}, log[1..])
      case _ => Scoped(held, log[1..])
  }

  /** A log that releases exactly what it acquires, each exactly once and in order. */
  predicate Balanced(log: seq<Command>) {
    Scoped({}, log) && After({}, log) == {}
  }

  lemma {:induction false} AfterConcat(held: set<int>, a: seq<Command>, b: seq<Command>)
    ensures After(held, a + b) == After(After(held, a), b)
    decreases |a|
  {
    if a != [] {
      assert (a + b)[0] == a[0];
      assert (a + b)[1..] == a[1..] + b;
      match a[0]
      case Acquire(id, _, _) => AfterConcat(held + {id}, a[1..], b);
      case Release(id) => AfterConcat(held - {id}, a[1..], b);
      case _ => AfterConcat(held, a[1..], b);
    } else {
      assert a + b == b;
    }
  }

  lemma {:induction false} ScopedConcat(held: set<int>, a: seq<Command>, b: seq<Command>)
    ensures Scoped(held, a + b) <==> Scoped(held, a) && Scoped(After(held, a), b)
    decreases |a|
  {
    if a != [] {
      assert (a + b)[0] == a[0];
      assert (a + b)[1..] == a[1..] + b;
      match a[0]
      case Acquire(id, _, _) => ScopedConcat(held + {id}, a[1..], b);
      case Release(id) => ScopedConcat(held - {id}, a[1..], b);
      case _ => ScopedConcat(held, a[1..], b);
    } else {
      assert a + b == b;
    }
  }

  /** Commands that do not touch the pool leave it, and its scoping, as it was. */
  lemma {:induction false} PoolFreeLog(held: set<int>, log: seq<Command>)
    requires PoolFree(log)
    ensures Scoped(held, log) && After(held, log) == held
    decreases |log|
  {
    if log != [] {
      assert !IsPoolCommand(log[0]);
      assert PoolFree(log[1..]) by {
        forall k | 0 <= k < |log[1..]| ensures !IsPoolCommand(log[1..][k]) {
          assert log[1..][k] == log[k + 1];
        }
      }
      PoolFreeLog(held, log[1..]);
    }
  }

  lemma PoolFreeConcat(a: seq<Command>, b: seq<Command>)
    requires PoolFree(a) && PoolFree(b)
    ensures PoolFree(a + b)
  {
    forall k | 0 <= k < |a + b| ensures !IsPoolCommand((a + b)[k]) {
      if k < |a| { assert (a + b)[k] == a[k]; } else { assert (a + b)[k] == b[k - |a|]; }
    }
  }

  /** One step of the pool, for a single command. */
  lemma SingleStep(held: set<int>, c: Command)
    ensures c.Acquire? ==> (Scoped(held, [c]) <==> c.id !in held) && After(held, [c]) == held + {c.id}
    ensures c.Release? ==> (Scoped(held, [c]) <==> c.id in held) && After(held, [c]) == held - {c.id}
    ensures !IsPoolCommand(c) ==> Scoped(held, [c]) && After(held, [c]) == held
  {
    assert [c][1..] == [];
  }

  lemma Assoc(a: seq<Command>, b: seq<Command>, c: seq<Command>)
    ensures a + b + c == a + (b + c)
  {
  }

  lemma Regroup4(a: seq<Command>, b: seq<Command>, c: seq<Command>, d: seq<Command>)
    ensures a + b + c + d == a + (b + c + d)
  {
  }

  lemma Regroup5(a: seq<Command>, b: seq<Command>, c: seq<Command>, d: seq<Command>, e: seq<Command>)
    ensures a + b + c + d + e == a + (b + c + d + e)
  {
  }

  /** Regrouping a log made of six pieces. */
  lemma Regroup(a: seq<Command>, b: seq<Command>, c: seq<Command>, d: seq<Command>, e: seq<Command>, f: seq<Command>)
    ensures a + b + c + d + e + f == a + (b + c + d + e + f)
  {
  }

  /** Two logs run one after the other, each scoped from the state the previous one leaves. */
  lemma ScopedThen(held: set<int>, a: seq<Command>, b: seq<Command>, mid: set<int>, out: set<int>)
    requires Scoped(held, a) && After(held, a) == mid
    requires Scoped(mid, b) && After(mid, b) == out
    ensures Scoped(held, a + b) && After(held, a + b) == out
  {
    ScopedConcat(held, a, b);
    AfterConcat(held, a, b);
  }

  /** The targets a log acquires. */
  function Acquired(log: seq<Command>): set<int>
    decreases |log|
  {
    if log == [] then {}
    else Acquired(log[..|log| - 1]) + (if log[|log| - 1].Acquire? then {log[|log| - 1].id} else {})
  }

  lemma {:induction false} AcquiredConcat(a: seq<Command>, b: seq<Command>)
    ensures Acquired(a + b) == Acquired(a) + Acquired(b)
    decreases |b|
  {
    if b == [] {
      assert a + b == a;
    } else {
      var b' := b[..|b| - 1];
      assert (a + b)[..|a + b| - 1] == a + b';
      AcquiredConcat(a, b');
    }
  }

  lemma AcquiredSingle(c: Command)
    ensures Acquired([c]) == if c.Acquire? then {c.id} else {}
  {
    assert [c][..0] == [];
  }

  /** A pool-free log acquires nothing. */
  lemma {:induction false} AcquiredPoolFree(log: seq<Command>)
    requires PoolFree(log)
    ensures Acquired(log) == {}
    decreases |log|
  {
    if log != [] {
      assert !IsPoolCommand(log[|log| - 1]);
      var prefix := log[..|log| - 1];
      assert PoolFree(prefix) by {
        forall k | 0 <= k < |prefix| ensures !IsPoolCommand(prefix[k]) {
          assert prefix[k] == log[k];
        }
      }
      AcquiredPoolFree(prefix);
    }
  }

  /** Running two balanced logs one after the other is balanced. */
  lemma BalancedConcat(a: seq<Command>, b: seq<Command>)
    requires Balanced(a) && Balanced(b)
    ensures Balanced(a + b)
  {
    ScopedConcat({}, a, b);
    AfterConcat({}, a, b);
  }

  /** The number of keyword-enable commands in a log. */
  function EnableCount(log: seq<Command>): nat
    decreases |log|
  {
    if log == [] then 0
    else EnableCount(log[..|log| - 1]) + (if log[|log| - 1].EnableKeyword? then 1 else 0)
  }

  /** The number of draws into the camera target in a log. */
  function DrawFinalCount(log: seq<Command>): nat
    decreases |log|
  {
    if log == [] then 0
    else DrawFinalCount(log[..|log| - 1]) + (if log[|log| - 1].DrawFinal? then 1 else 0)
  }

  lemma {:induction false} DrawFinalCountConcat(a: seq<Command>, b: seq<Command>)
    ensures DrawFinalCount(a + b) == DrawFinalCount(a) + DrawFinalCount(b)
    decreases |b|
  {
    if b == [] {
      assert a + b == a;
    } else {
      var b' := b[..|b| - 1];
      assert (a + b)[..|a + b| - 1] == a + b';
      DrawFinalCountConcat(a, b');
    }
  }

  lemma {:induction false} DrawFinalCountNone(log: seq<Command>)
    requires forall k :: 0 <= k < |log| ==> !log[k].DrawFinal?
    ensures DrawFinalCount(log) == 0
    decreases |log|
  {
    if log != [] {
      DrawFinalCountNone(log[..|log| - 1]);
    }
  }

  /** SetKeywords: keyword `i` is enabled when `i == enabledIndex`, every other one disabled,
      in array order. */
  function KeywordCommands(keywords: seq<string>, enabledIndex: int): (r: seq<Command>)
  {
    seq(|keywords|, i requires 0 <= i < |keywords| =>
      if i == enabledIndex then EnableKeyword(keywords[i]) else DisableKeyword(keywords[i]))
  }

  /** Dropping the last keyword drops the last command. */
  lemma KeywordCommandsSnoc(keywords: seq<string>, enabledIndex: int)
    requires keywords != []
    ensures var i := |keywords| - 1;
      KeywordCommands(keywords, enabledIndex)
      == KeywordCommands(keywords[..i], enabledIndex)
         + [if i == enabledIndex then EnableKeyword(keywords[i]) else DisableKeyword(keywords[i])]
  {
  }

  /** At most one keyword of a group is enabled, and exactly one when the index is in range. */
  lemma {:induction false} KeywordCommandsEnableCount(keywords: seq<string>, enabledIndex: int)
    ensures EnableCount(KeywordCommands(keywords, enabledIndex))
            == if 0 <= enabledIndex < |keywords| then 1 else 0
    decreases |keywords|
  {
    if keywords != [] {
      var i := |keywords| - 1;
      var r := KeywordCommands(keywords, enabledIndex);
      KeywordCommandsSnoc(keywords, enabledIndex);
      assert r[..|r| - 1] == KeywordCommands(keywords[..i], enabledIndex);
      KeywordCommandsEnableCount(keywords[..i], enabledIndex);
    }
  }

  lemma KeywordCommandsPoolFree(keywords: seq<string>, enabledIndex: int)
    ensures PoolFree(KeywordCommands(keywords, enabledIndex))
  {
  }

}
