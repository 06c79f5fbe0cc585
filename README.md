# Rope pipeline model

A Dafny model of three pieces of a position-based rope simulation written for
Unity:

- the per-tick stage schedule of `ApexRopeSimulator`: one force/prediction
  stage, then `iterator` rounds of a distance-relaxation stage followed by a
  final (pin) constraint stage, each waiting for the stage before it;
- rope creation in `ApexRopeCreate`: the optional override of the first
  particle position, the loop that lays `particleCount` particles on a
  straight line, and the wiring of the particle list, stiffness and damping
  into the solver;
- the quadruple particle link `ApexConstraintParticleFour`, a record of four
  particle indices.

Files:

- `vectors.dfy` (module `Vectors`): `Vector3`/`float3` as triples of reals.
- `constraints.dfy` (module `Constraints`): the quadruple link as a datatype
  with its two constructors as functions.
- `simulator.dfy` (module `Simulator`): a job handle is modelled as the chain
  of stages it completes; a freshly constructed handle is the empty chain and
  scheduling a stage after a handle appends a stage that records the position
  of its predecessor (-1 for none). `TickChain` is an independent,
  position-by-position description of one tick; `Step` is proved to build
  exactly that chain, and the schedule's properties are proved about
  `TickChain`. The source's `iterator` field is called `iterCount` because
  `iterator` is a Dafny keyword. The coefficient `d = 1 / (iterator - i)` is
  kept as its integer denominator; `Coefficient` gives its exact real value.
  `ScheduleParallel(len, 64, dep)` becomes dispatch `Parallel(64)` and
  `Schedule(len, dep)` dispatch `Sequential`.
- `rope_create.dfy` (module `Rope`): the creator, rope and solver are classes,
  and so is the particle list (`ParticleList`), which the rope and the solver
  share; particles and proxies are values. `Particles` and `Elements` give the lists
  after the first `n` rounds of the layout loop; `InitRope` is proved to
  produce them for `n = particleCount`.

## Model

| member | source | states |
|---|---|---|
| `Constraints.Default` | Assets/Scripts/APEX/Common/Constraints/Connect/ApexConstraintParticleFour.cs:10-15 | the parameterless constructor leaves all four indices at 0 |
| `Constraints.Create` | Assets/Scripts/APEX/Common/Constraints/Connect/ApexConstraintParticleFour.cs:17-23 | for any four integers, with no validation, `p1..p4` read back exactly the arguments in their given positions |
| `Constraints.CreateFromFields` | Assets/Scripts/APEX/Common/Constraints/Connect/ApexConstraintParticleFour.cs:17-23 | rebuilding a link from its four fields gives the same link (round trip) |
| `Constraints.CreateInjective` | Assets/Scripts/APEX/Common/Constraints/Connect/ApexConstraintParticleFour.cs:17-23 | two constructed links are field-wise equal exactly when their arguments are |
| `Constraints.CreateKeepsOrder` | Assets/Scripts/APEX/Common/Constraints/Connect/ApexConstraintParticleFour.cs:19-22 | the link from reversed arguments is field-wise equal to the original only for palindromic arguments: no sorting or swapping |
| `Constraints.DefaultIsAllZero` | Assets/Scripts/APEX/Common/Constraints/Connect/ApexConstraintParticleFour.cs:12-15 | the default link is the four-argument link of four zeros |
| `Simulator.ApexRopeSimulator.constructor` | Assets/Scripts/APEX/Common/Simulator/ApexRopeSimulator.cs:33-46 | the initial switches (all on), gravity (0, -9.81, 0), zero global force, air drag 0.2, damping 0.5, 10 iterations, an empty handle and no outstanding work |
| `Simulator.ApexRopeSimulator.DoFinalConstraintJobs` | Assets/Scripts/APEX/Common/Simulator/ApexRopeSimulator.cs:53-65 | keeps every stage of `depend` and appends one pin stage over `nowPosition.Length` particles that waits for `depend`'s last stage |
| `Simulator.ApexRopeSimulator.DoDistanceConstraintJobs` | Assets/Scripts/APEX/Common/Simulator/ApexRopeSimulator.cs:73-88 | appends one distance stage over the links with rest length 1.2, stiffness 0.5 and `d = 1/(iterator - iterIndex)`, waiting for `depend`; for `0 <= iterIndex < iterator` the denominator is in `1..iterator` |
| `Simulator.ApexRopeSimulator.DoForceJobs` | Assets/Scripts/APEX/Common/Simulator/ApexRopeSimulator.cs:112-134 | a chain of one force stage over the particles, batch size 64, with no predecessor (fresh handle), carrying `dt`, gravity, global force, air drag and damping |
| `Simulator.ApexRopeSimulator.DoConstraintJobs` | Assets/Scripts/APEX/Common/Simulator/ApexRopeSimulator.cs:95-105 | the loop's handle equals `ConstraintRounds` after `max(iterator, 0)` rounds |
| `Simulator.ConstraintRoundsStages` | Assets/Scripts/APEX/Common/Simulator/ApexRopeSimulator.cs:97-104 | `k` rounds keep the stages of `depend` and add `2k` stages: distance stage of round `i` with denominator `iterator - i`, then its pin stage, each waiting for the one before |
| `Simulator.ApexRopeSimulator.Step` | Assets/Scripts/APEX/Common/Simulator/ApexRopeSimulator.cs:143-149 | the stored handle's chain is the reference tick chain, built from `iterator`, the buffer lengths, `dt` and the force parameters only (the switches are not consulted); only the handle and its outstanding work change |
| `Simulator.ApexRopeSimulator.Complete` | Assets/Scripts/APEX/Common/Simulator/ApexRopeSimulator.cs:154-157 | after waiting on the handle no scheduled work is outstanding; nothing else changes |
| `Simulator.TickChainShape` | Assets/Scripts/APEX/Common/Simulator/ApexRopeSimulator.cs:143-149 | a tick has `1 + 2*iterator` stages: the force stage first and nowhere else, then distance and pin stages alternating |
| `Simulator.ZeroIterationsOnlyForce` | Assets/Scripts/APEX/Common/Simulator/ApexRopeSimulator.cs:98-104 | with `iterator <= 0` the tick is the force stage alone |
| `Simulator.TickChainDependencies` | Assets/Scripts/APEX/Common/Simulator/ApexRopeSimulator.cs:97-104 | every stage waits for the stage immediately before it; the first waits for nothing |
| `Simulator.TickChainFanOut` | Assets/Scripts/APEX/Common/Simulator/ApexRopeSimulator.cs:79-87 | every distance stage has rest length 1.2, stiffness 0.5 and runs over `doubleConnect.Length` links; the force and pin stages run over `nowPosition.Length` particles |
| `Simulator.TickChainDenominators` | Assets/Scripts/APEX/Common/Simulator/ApexRopeSimulator.cs:73-75 | the distance stage of round `i` has denominator `iterator - i`, which lies in `1..iterator` and is never zero |
| `Simulator.CoefficientDecreasing` | Assets/Scripts/APEX/Common/Simulator/ApexRopeSimulator.cs:75 | a larger positive denominator gives a strictly smaller `d` |
| `Simulator.TickChainCoefficients` | Assets/Scripts/APEX/Common/Simulator/ApexRopeSimulator.cs:98-100 | `d` strictly increases from round to round and the last distance stage has `d = 1` |
| `Rope.ApexRopeCreate.constructor` | Assets/Scripts/APEX/Rope/Create/ApexRopeCreate.cs:11-24 | the field initialisers: no self position, first position zero, 10 particles, step 1.2 to the left, no template, mass 1, stiffness 0.5, damping 0.5 |
| `Rope.ApexRopeCreate.Start` | Assets/Scripts/APEX/Rope/Create/ApexRopeCreate.cs:26-42 | a template exists afterwards; the first position becomes the object's position exactly when `useSelfPosition` is set; then the rope is built as `InitRope` states |
| `Rope.ApexRopeCreate.InitRope` | Assets/Scripts/APEX/Rope/Create/ApexRopeCreate.cs:47-81 | fresh rope, solver and particle list; the list holds the layout of `particleCount` particles and the proxy list their proxies; the solver holds the very same list object as the rope (shared, not copied) and the creator's stiffness and damping |
| `Rope.ParticlesAt` | Assets/Scripts/APEX/Rope/Create/ApexRopeCreate.cs:56-75 | the layout has `particleCount` particles (none when `<= 0`); particle `i` has index `i`, the creator's mass, position `first + i*(stepSize*stepDirect)` and starts at rest |
| `Rope.ElementsMatchParticles` | Assets/Scripts/APEX/Rope/Create/ApexRopeCreate.cs:60-75 | one proxy per particle, named after its index and placed at its position |
| `Rope.ParticlesOrdered` | Assets/Scripts/APEX/Rope/Create/ApexRopeCreate.cs:64-75 | particle indices strictly increase along the list |
| `Rope.ParticlesEvenlySpaced` | Assets/Scripts/APEX/Rope/Create/ApexRopeCreate.cs:58 | consecutive particles differ by exactly `stepSize*stepDirect` |

## Left out

- Unity job scheduling and parallel execution (`JobHandle`, `Schedule`, `ScheduleParallel`, worker threads): only the ordered chain of stages that the dependencies encode is modelled, and `Complete` is modelled as clearing the outstanding work, a ghost field that stands for the job system's completion state.
- Simulator.ApexRopeSimulator.Step: a previous tick's stages that were never waited for are not tracked once `Step` overwrites the handle; the model keeps only the stages behind the current handle.
- The job kernels (`SimulateForceExtJob`, `DistanceConstraintJob`, `FinalConstraintJob`) are not part of this model: their bodies are not available, so no Verlet update, mass-weighted correction or pin snapping is modelled.
- Floating point: `float`, `float3` and `Vector3` are modelled with exact reals, so `d = 1.0f / n` is the exact `1/n` and the layout positions carry no rounding.
- `NativeArray` buffers, their allocation and lifetime, and the base class `ApexSimulatorBase`: the simulator keeps only the two lengths it schedules over (`nowPosition.Length`, `doubleConnect.Length`), given to its constructor.
- The collider-constraint stage: the source has only a placeholder comment for it, and nothing is scheduled there.
- Scene plumbing in rope creation: `GameObject.CreatePrimitive` (modelled only as the template flag becoming set), `Instantiate` parenting, `Debug.Log`, `AddComponent` (modelled as fresh objects), the particles' rotation and scale, and the proxies' name text (kept as the integer index).
- `ApexRope`, `ApexSolver` and `ApexLineParticle` are not part of this model beyond the fields rope creation assigns; the solver's initial stiffness and damping are unknown and not stated.
- Constraints.Create: the C# link is a class with writable public fields; as an immutable datatype the model drops reference identity (two links built from the same arguments are distinct objects in C#) and assignment to the fields after construction.
