/** How the built pod depends on the order of the options, and what its command line says. */
module JobPodOrder {
  import opened Api
  import opened JobPod
  import opened Bags

  type Flag = (string, string)

  /** A command line read as "run" followed by flag/value pairs, by position only. */
  function Pairs(args: seq<string>): seq<Flag> {
    if |args| < 2 then [] else [(args[0], args[1])] + Pairs(args[2..])
  }

  predicate IsCommandLine(args: seq<string>) {
    |args| % 2 == 1 && args[0] == "run"
  }

  function ParseArgs(args: seq<string>): Option<seq<Flag>> {
    if IsCommandLine(args) then Some(Pairs(args[1..])) else None
  }

  lemma {:induction false} PairsAppend(a: seq<string>, flag: string, value: string)
    requires |a| % 2 == 0
    ensures Pairs(a + [flag, value]) == Pairs(a) + [(flag, value)]
  {
    if |a| == 0 {
      assert a + [flag, value] == [flag, value];
      assert [flag, value][2..] == [];
    } else {
      assert (a + [flag, value])[2..] == a[2..] + [flag, value];
      PairsAppend(a[2..], flag, value);
    }
  }

  // ------------------------------------------------ equality up to order

  /** Equal but for the order of the volumes and of the flag/value pairs. */
  ghost predicate EqualUpToOrder(p: Pod, q: Pod) {
    && |p.containers| == 2 && |q.containers| == 2
    && p == q.(volumes := p.volumes, containers := [q.containers[0], q.containers[1].(args := p.containers[1].args)])
    && multiset(p.volumes) == multiset(q.volumes)
    && ParseArgs(p.containers[1].args).Some?
    && ParseArgs(q.containers[1].args).Some?
    && multiset(ParseArgs(p.containers[1].args).value) == multiset(ParseArgs(q.containers[1].args).value)
  }

  /** The kinds of effect of which two may not change places: they overwrite one another,
      or their order shows in a list whose order is kept. */
  function Kind(e: Effect): nat {
    match e
    case SetName(_) => 1
    case SetNamespace(_) => 2
    case SetOwner(_) => 3
    case SetImage(_) => 4
    case AddEnv(_) => 5
    case AddMountedVolume(_, _) => 6
    case _ => 0
  }

  /** Two effects may change places: they are the same, of different kinds, or leave the same
      mark on the one list of the two they append to whose order shows. */
  predicate Commute(a: Effect, b: Effect) {
    || a == b || Kind(a) == 0 || Kind(a) != Kind(b)
    || (a.AddMountedVolume? && b.AddMountedVolume? && a.mount == b.mount)
  }

  /** No two of these effects depend on their order. */
  ghost predicate AllCommute(es: multiset<Effect>) {
    forall a, b :: a in es && b in es ==> Commute(a, b)
  }

  /** The parts of a pod with volumes and flags as bags. */
  datatype Bag = Bag(rest: Parts, volumes: multiset<Volume>, flags: multiset<Flag>)

  function BagOf(f: Parts): Bag {
    Bag(f.(volumes := [], args := []), multiset(f.volumes), multiset(Pairs(f.args)))
  }

  function VolumesOf(e: Effect): multiset<Volume> {
    match e
    case AddVolume(v) => multiset{v}
    case AddMountedVolume(v, _) => multiset{v}
    case _ => multiset{}
  }

  function FlagsOf(e: Effect): multiset<Flag> {
    if e.AddFlag? then multiset{(e.flag, e.value)} else multiset{}
  }

  function TouchRest(e: Effect, rest: Parts): Parts {
    match e
    case AddFlag(_, _) => rest
    case AddVolume(_) => rest
    case AddMountedVolume(_, m) => rest.(mounts := rest.mounts + [m])
    case _ => Touch(e, rest)
  }

  function Toss(e: Effect, b: Bag): Bag {
    Bag(TouchRest(e, b.rest), b.volumes + VolumesOf(e), b.flags + FlagsOf(e))
  }

  function TossAll(es: seq<Effect>, b: Bag): Bag {
    if es == [] then b else TossAll(es[1..], Toss(es[0], b))
  }

  lemma TouchTossesRest(e: Effect, f: Parts)
    ensures Touch(e, f).(volumes := [], args := []) == TouchRest(e, f.(volumes := [], args := []))
  {
  }

  lemma TouchTossesVolumes(e: Effect, f: Parts)
    ensures multiset(Touch(e, f).volumes) == multiset(f.volumes) + VolumesOf(e)
  {
  }

  lemma TouchTossesFlags(e: Effect, f: Parts)
    requires |f.args| % 2 == 0
    ensures |Touch(e, f).args| % 2 == 0
    ensures multiset(Pairs(Touch(e, f).args)) == multiset(Pairs(f.args)) + FlagsOf(e)
  {
    if e.AddFlag? {
      PairsAppend(f.args, e.flag, e.value);
    } else {
      assert Touch(e, f).args == f.args;
    }
  }

  lemma {:induction false} TouchAllTosses(es: seq<Effect>, f: Parts)
    requires |f.args| % 2 == 0
    ensures |TouchAll(es, f).args| % 2 == 0
    ensures BagOf(TouchAll(es, f)) == TossAll(es, BagOf(f))
  {
    if es != [] {
      TouchTossesRest(es[0], f);
      TouchTossesVolumes(es[0], f);
      TouchTossesFlags(es[0], f);
      TouchAllTosses(es[1..], Touch(es[0], f));
    }
  }

  /** Two neighbours of different kinds can change places. */
  lemma SwapNeighbours(a: Effect, b: Effect, s: Bag)
    requires Commute(a, b)
    ensures Toss(a, Toss(b, s)) == Toss(b, Toss(a, s))
  {
    hide Commute, TouchRest, VolumesOf, FlagsOf;
    SwapRest(a, b, s.rest);
    assert s.volumes + VolumesOf(a) + VolumesOf(b) == s.volumes + VolumesOf(b) + VolumesOf(a);
    assert s.flags + FlagsOf(a) + FlagsOf(b) == s.flags + FlagsOf(b) + FlagsOf(a);
  }

  lemma SwapRest(a: Effect, b: Effect, rest: Parts)
    requires Commute(a, b)
    ensures TouchRest(a, TouchRest(b, rest)) == TouchRest(b, TouchRest(a, rest))
  {
  }

  /** An effect that commutes with all before it can come first. */
  lemma {:induction false} MoveToFront(before: seq<Effect>, e: Effect, after: seq<Effect>, s: Bag)
    requires forall i :: 0 <= i < |before| ==> Commute(e, before[i])
    ensures TossAll(before + [e] + after, s) == TossAll(before + after, Toss(e, s))
  {
    if before == [] {
      assert before + [e] + after == [e] + after;
      assert before + after == after;
    } else {
      var x, rest := before[0], before[1..];
      assert (before + [e] + after)[1..] == rest + [e] + after;
      assert (before + after)[1..] == rest + after;
      MoveToFront(rest, e, after, Toss(x, s));
      SwapNeighbours(e, x, s);
    }
  }

  lemma AllCommuteWithin(es: multiset<Effect>, some: multiset<Effect>)
    requires AllCommute(es) && some <= es
    ensures AllCommute(some)
  {
  }

  lemma {:induction false} TossAllPermutes(xs: seq<Effect>, ys: seq<Effect>, s: Bag)
    requires multiset(xs) == multiset(ys)
    requires AllCommute(multiset(xs))
    ensures TossAll(xs, s) == TossAll(ys, s)
    decreases |xs|
  {
    if xs == [] {
      assert |multiset(ys)| == |ys|;
    } else {
      var i := FirstMatch(xs, ys);
      var before, after := ys[..i], ys[i + 1..];
      assert multiset(before + after) <= multiset(ys);
      AllCommuteWithin(multiset(xs), multiset(xs[1..]));
      CommutesWithRest(xs[0], ys, i);
      MoveToFront(before, xs[0], after, s);
      TossAllPermutes(xs[1..], before + after, Toss(xs[0], s));
    }
  }

  lemma CommutesWithRest(x: Effect, ys: seq<Effect>, i: nat)
    requires i < |ys| && ys[i] == x && AllCommute(multiset(ys))
    ensures forall j :: 0 <= j < i ==> Commute(x, ys[j])
  {
    SplitOff(ys, i);
    var rest := ys[..i] + ys[i + 1..];
    forall j | 0 <= j < i ensures Commute(x, ys[j]) {
      assert rest[j] == ys[j] && ys[j] in multiset(rest);
      assert ys[j] in multiset(ys) && x in multiset(ys);
    }
  }

  function EffectBag(os: seq<PodOption>): multiset<Effect> {
    multiset(Effects(os))
  }

  lemma EffectBagCons(o: PodOption, os: seq<PodOption>)
    ensures EffectBag([o] + os) == multiset{EffectOf(o)} + EffectBag(os)
  {
    assert ([o] + os)[1..] == os;
  }

  lemma {:induction false} EffectBagWithout(a: seq<PodOption>, o: PodOption, c: seq<PodOption>)
    ensures EffectBag(a + [o] + c) == EffectBag(a + c) + multiset{EffectOf(o)}
  {
    if a == [] {
      assert a + [o] + c == [o] + c && a + c == c;
      EffectBagCons(o, c);
    } else {
      var x, rest := a[0], a[1..];
      assert a + [o] + c == [x] + (rest + [o] + c);
      assert a + c == [x] + (rest + c);
      EffectBagCons(x, rest + [o] + c);
      EffectBagCons(x, rest + c);
      EffectBagWithout(rest, o, c);
    }
  }

  lemma {:induction false} EffectsPermute(xs: seq<PodOption>, ys: seq<PodOption>)
    requires multiset(xs) == multiset(ys)
    ensures EffectBag(xs) == EffectBag(ys)
  {
    if xs == [] {
      assert |multiset(ys)| == |ys|;
    } else {
      var i := FirstMatch(xs, ys);
      var rest := ys[..i] + ys[i + 1..];
      EffectsPermute(xs[1..], rest);
      EffectBagWithout(ys[..i], xs[0], ys[i + 1..]);
      assert xs == [xs[0]] + xs[1..];
      EffectBagCons(xs[0], xs[1..]);
    }
  }

  lemma AssembledArgs(base: Pod, f: Parts)
    requires TwoContainers(base)
    requires |f.args| % 2 == 0 && IsCommandLine(base.containers[1].args)
    ensures ParseArgs(Assemble(base, f).containers[1].args) == Some(Pairs(base.containers[1].args[1..]) + Pairs(f.args))
  {
    var args := base.containers[1].args;
    assert (args + f.args)[1..] == args[1..] + f.args;
    PairsConcat(args[1..], f.args);
  }

  lemma {:induction false} PairsConcat(a: seq<string>, b: seq<string>)
    requires |a| % 2 == 0
    ensures Pairs(a + b) == Pairs(a) + Pairs(b)
  {
    if a == [] {
      assert a + b == b;
    } else {
      assert (a + b)[2..] == a[2..] + b;
      PairsConcat(a[2..], b);
    }
  }

  lemma AssembleUpToOrder(base: Pod, f: Parts, g: Parts)
    requires TwoContainers(base) && IsCommandLine(base.containers[1].args)
    requires |f.args| % 2 == 0 && |g.args| % 2 == 0
    requires BagOf(f) == BagOf(g)
    ensures EqualUpToOrder(Assemble(base, f), Assemble(base, g))
  {
    AssembledArgs(base, f);
    AssembledArgs(base, g);
    assert f.(volumes := [], args := []) == g.(volumes := [], args := []);
    assert f == f.(volumes := [], args := []).(volumes := f.volumes, args := f.args);
    assert f == g.(volumes := f.volumes, args := f.args);
  }

  /** Any two orders of the same options build the same pod, up to the order of its volumes
      and of its flag/value pairs, when no two of them depend on their order. */
  lemma OrderIrrelevant(xs: seq<PodOption>, ys: seq<PodOption>)
    requires multiset(xs) == multiset(ys)
    requires AllCommute(multiset(Effects(xs)))
    ensures New(xs).Built? && New(ys).Built?
    ensures EqualUpToOrder(New(xs).pod, New(ys).pod)
  {
    NewAssembles(xs);
    NewAssembles(ys);
    EffectsPermute(xs, ys);
    TouchAllTosses(Effects(xs), NO_PARTS);
    TouchAllTosses(Effects(ys), NO_PARTS);
    TossAllPermutes(Effects(xs), Effects(ys), BagOf(NO_PARTS));
    AssembleUpToOrder(InitialPod(), TouchAll(Effects(xs), NO_PARTS), TouchAll(Effects(ys), NO_PARTS));
  }

  // ------------------------------------------- and otherwise it does matter

  /** The parts whose order or last value shows in the pod. */
  predicate SameMarks(f: Parts, g: Parts) {
    f.name == g.name && f.namespace == g.namespace && f.owners == g.owners && f.image == g.image && f.env == g.env
  }

  lemma EqualPodsSameMarks(base: Pod, f: Parts, g: Parts)
    requires TwoContainers(base) && EqualUpToOrder(Assemble(base, f), Assemble(base, g))
    ensures SameMarks(f, g)
  {
    var env := base.containers[0].env;
    assert Assemble(base, f).containers[0] == Assemble(base, g).containers[0];
    assert (env + f.env)[|env|..] == f.env && (env + g.env)[|env|..] == g.env;
  }

  lemma SwapShows(f: Parts, a: Effect, b: Effect)
    requires !Commute(a, b) && !a.AddMountedVolume?
    ensures !SameMarks(Touch(b, Touch(a, f)), Touch(a, Touch(b, f)))
  {
    if a.AddEnv? {
      var n := |f.env|;
      assert (f.env + [a.env] + [b.env])[n] == a.env && (f.env + [b.env] + [a.env])[n] == b.env;
    }
  }

  lemma {:induction false} EffectHasOption(os: seq<PodOption>, e: Effect) returns (i: nat)
    requires e in multiset(Effects(os))
    ensures i < |os| && EffectOf(os[i]) == e
  {
    if EffectOf(os[0]) == e {
      i := 0;
    } else {
      assert Effects(os) == [EffectOf(os[0])] + Effects(os[1..]);
      i := EffectHasOption(os[1..], e);
      i := i + 1;
    }
  }

  lemma LastTwo(rest: seq<PodOption>, x: PodOption, y: PodOption)
    ensures TouchAll(Effects(rest + [x, y]), NO_PARTS)
         == Touch(EffectOf(y), Touch(EffectOf(x), TouchAll(Effects(rest), NO_PARTS)))
  {
    EffectsConcat(rest, [x, y]);
    TouchAllConcat(Effects(rest), Effects([x, y]), NO_PARTS);
    TwoEffects(x, y, TouchAll(Effects(rest), NO_PARTS));
  }

  /** The list without the elements at two places. */
  lemma WithoutTwo(os: seq<PodOption>, i: nat, j: nat) returns (rest: seq<PodOption>)
    requires i < |os| && j < |os| && i != j
    ensures multiset(rest + [os[i], os[j]]) == multiset(os) == multiset(rest + [os[j], os[i]])
  {
    var less := os[..i] + os[i + 1..];
    var k := if j < i then j else j - 1;
    assert less[k] == os[j];
    SplitOff(os, i);
    SplitOff(less, k);
    rest := less[..k] + less[k + 1..];
  }

  /** Two options that do not commute can be put in an order that shows. */
  lemma OrderShows(os: seq<PodOption>, a: Effect, b: Effect) returns (ys: seq<PodOption>)
    requires a in multiset(Effects(os)) && b in multiset(Effects(os)) && !Commute(a, b)
    ensures multiset(ys) == multiset(os) && !EqualUpToOrder(NewPod(os), NewPod(ys))
  {
    hide EqualUpToOrder, Touch, TouchAll, Effects, Assemble;
    var i := EffectHasOption(os, a);
    var j := EffectHasOption(os, b);
    var rest := WithoutTwo(os, i, j);
    var first, second := rest + [os[i], os[j]], rest + [os[j], os[i]];
    NewAssembles(os);
    NewAssembles(first);
    NewAssembles(second);
    LastTwo(rest, os[i], os[j]);
    LastTwo(rest, os[j], os[i]);
    var f := TouchAll(Effects(rest), NO_PARTS);
    SwapShows(f, a, b);
    ys := first;
    if EqualUpToOrder(NewPod(os), NewPod(first)) {
      EqualPodsSameMarks(InitialPod(), TouchAll(Effects(os), NO_PARTS), TouchAll(Effects(first), NO_PARTS));
      ys := second;
      if EqualUpToOrder(NewPod(os), NewPod(second)) {
        EqualPodsSameMarks(InitialPod(), TouchAll(Effects(os), NO_PARTS), TouchAll(Effects(second), NO_PARTS));
      }
    }
  }

  /** The order of a list of options is irrelevant exactly when no two of its options depend on
      their order: none that overwrites, and no environment variable, is set to two values. */
  lemma OrderIrrelevantExactlyWhen(xs: seq<PodOption>)
    ensures (forall ys :: multiset(ys) == multiset(xs) ==> EqualUpToOrder(NewPod(xs), NewPod(ys)))
            <==> AllCommute(multiset(Effects(xs)))
  {
    if AllCommute(multiset(Effects(xs))) {
      forall ys | multiset(ys) == multiset(xs) ensures EqualUpToOrder(NewPod(xs), NewPod(ys)) {
        OrderIrrelevant(xs, ys);
      }
    } else {
      var a, b :| a in multiset(Effects(xs)) && b in multiset(Effects(xs)) && !Commute(a, b);
      var ys := OrderShows(xs, a, b);
    }
  }

  /** The place in Reconcile's list of the one option of each kind. */
  function PlaceOf(kind: nat): nat {
    match kind
    case 1 => 0
    case 2 => 1
    case 5 => 2
    case 6 => 7
    case 4 => 8
    case 3 => 10
    case _ => 11
  }

  predicate InPlace(e: Effect, i: nat) {
    Kind(e) == 0 || PlaceOf(Kind(e)) == i
  }

  ghost predicate AllInPlace(es: seq<Effect>, start: nat) {
    forall i :: 0 <= i < |es| ==> InPlace(es[i], start + i)
  }

  lemma InPlaceConcat(a: seq<Effect>, b: seq<Effect>, start: nat)
    requires AllInPlace(a, start) && AllInPlace(b, start + |a|)
    ensures AllInPlace(a + b, start)
  {
    forall i | 0 <= i < |a + b| ensures InPlace((a + b)[i], start + i) {
      if i >= |a| {
        assert InPlace(b[i - |a|], start + |a| + (i - |a|));
      }
    }
  }

  lemma TwoInPlace(x: PodOption, y: PodOption, start: nat)
    requires InPlace(EffectOf(x), start) && InPlace(EffectOf(y), start + 1)
    ensures |Effects([x, y])| == 2 && AllInPlace(Effects([x, y]), start)
  {
    TwoEffects(x, y, NO_PARTS);
  }

  lemma ThreeInPlace(x: PodOption, y: PodOption, z: PodOption, start: nat)
    requires InPlace(EffectOf(x), start) && InPlace(EffectOf(y), start + 1) && InPlace(EffectOf(z), start + 2)
    ensures |Effects([x, y, z])| == 3 && AllInPlace(Effects([x, y, z]), start)
  {
    ThreeEffects(x, y, z, NO_PARTS);
  }

  lemma CommuteByPlace(es: seq<Effect>)
    requires AllInPlace(es, 0)
    ensures AllCommute(multiset(es))
  {
    forall a, b | a in multiset(es) && b in multiset(es) && a != b ensures Commute(a, b) {
      var i, j := TwoPlaces(es, a, b);
      assert InPlace(es[i], 0 + i) && InPlace(es[j], 0 + j);
    }
  }

  lemma LaunchCommutes(podName: string, run: Key, owner: Owner, spec: RunSpec, image: string)
    ensures AllCommute(multiset(Effects(LaunchOptions(podName, run, owner, spec, image))))
  {
    var o1, o2, o3 := WithPodName(podName), WithNamespace(run.ns), WithCertSuiteConfigRunName(run.name);
    var o4, o5, o6 := WithLabelsFilter(spec.labelsFilter), WithLogLevel(spec.logLevel), WithTimeOut(spec.timeOut);
    var o7, o8, o9 := WithConfigMap(spec.configMapName), WithPreflightSecret(spec.preflightSecretName), WithSideCarApp(image);
    var o10 := WithEnableDataCollection(if spec.enableDataCollection then "true" else "false");
    var o11 := WithOwnerReference(owner.uid, owner.name, owner.kind, owner.apiVersion);
    TouchAllFour([o1, o2, o3], [o4, o5, o6], [o7, o8, o9], [o10, o11], NO_PARTS);
    var a, b, c, d := Effects([o1, o2, o3]), Effects([o4, o5, o6]), Effects([o7, o8, o9]), Effects([o10, o11]);
    ThreeInPlace(o1, o2, o3, 0);
    ThreeInPlace(o4, o5, o6, 3);
    ThreeInPlace(o7, o8, o9, 6);
    TwoInPlace(o10, o11, 9);
    InPlaceConcat(a, b, 0);
    InPlaceConcat(a + b, c, 0);
    InPlaceConcat(a + b + c, d, 0);
    CommuteByPlace(Effects(LaunchOptions(podName, run, owner, spec, image)));
  }

  // ---------------------------------------------- what the command line says

  const BASE_FLAGS := [("--output-dir", RESULTS_FOLDER), ("--config-file", CONFIG_FILE),
                       ("--preflight-dockerconfig", PREFLIGHT_FILE), ("--intrusive", "false")]

  function RunFlags(spec: RunSpec): seq<Flag> {
    [("-l", spec.labelsFilter)] + [("--log-level", spec.logLevel)] + [("--timeout", spec.timeOut)]
    + [("--enable-data-collection", if spec.enableDataCollection then "true" else "false")]
  }

  lemma PairsOfFour(f: seq<string>, v: seq<string>)
    requires |f| == |v| == 4
    ensures
      Pairs([f[0], v[0]] + [f[1], v[1]] + [f[2], v[2]] + [f[3], v[3]])
      == [(f[0], v[0])] + [(f[1], v[1])] + [(f[2], v[2])] + [(f[3], v[3])]
  {
    PairsAppend([], f[0], v[0]);
    assert [] + [f[0], v[0]] == [f[0], v[0]];
    PairsAppend([f[0], v[0]], f[1], v[1]);
    PairsAppend([f[0], v[0]] + [f[1], v[1]], f[2], v[2]);
    PairsAppend([f[0], v[0]] + [f[1], v[1]] + [f[2], v[2]], f[3], v[3]);
  }

  lemma BaseFlags()
    ensures Pairs(InitialCertsuite().args[1..]) == BASE_FLAGS
  {
    var f := ["--output-dir", "--config-file", "--preflight-dockerconfig", "--intrusive"];
    var v := [RESULTS_FOLDER, CONFIG_FILE, PREFLIGHT_FILE, "false"];
    PairsOfFour(f, v);
    assert InitialCertsuite().args[1..] == [f[0], v[0]] + [f[1], v[1]] + [f[2], v[2]] + [f[3], v[3]];
  }

  lemma LaunchFlags(spec: RunSpec)
    ensures Pairs(LaunchArgs(spec)) == RunFlags(spec)
  {
    var f := ["-l", "--log-level", "--timeout", "--enable-data-collection"];
    var v := [spec.labelsFilter, spec.logLevel, spec.timeOut, if spec.enableDataCollection then "true" else "false"];
    PairsOfFour(f, v);
    assert LaunchArgs(spec) == [f[0], v[0]] + [f[1], v[1]] + [f[2], v[2]] + [f[3], v[3]];
  }

  /** Whatever strings the user wrote, even a flag's own name, positional parsing of the
      built command line gives back exactly the run's settings. */
  lemma ArgsRoundTrip(podName: string, run: Key, owner: Owner, spec: RunSpec, image: string)
    ensures |LaunchPod(podName, run, owner, spec, image).containers| == 2
    ensures ParseArgs(LaunchPod(podName, run, owner, spec, image).containers[1].args)
         == Some(BASE_FLAGS + RunFlags(spec))
  {
    LaunchPodIs(podName, run, owner, spec, image);
    assert |LaunchArgs(spec)| == 8;
    AssembledArgs(InitialPod(), LaunchParts(podName, run, owner, spec, image));
    BaseFlags();
    LaunchFlags(spec);
  }

  /** Every flag stands once in flag position. */
  lemma FlagsDistinct(spec: RunSpec)
    ensures
      var fs := BASE_FLAGS + RunFlags(spec);
      forall i, j :: 0 <= i < j < |fs| ==> fs[i].0 != fs[j].0
  {
    var fs := BASE_FLAGS + RunFlags(spec);
    var names := ["--output-dir", "--config-file", "--preflight-dockerconfig", "--intrusive",
                  "-l", "--log-level", "--timeout", "--enable-data-collection"];
    assert forall i :: 0 <= i < |fs| ==> fs[i].0 == names[i];
    assert |names[0]| == 12 && |names[1]| == 13 && |names[2]| == 24 && |names[3]| == 11
        && |names[4]| == 2 && |names[5]| == 11 && |names[6]| == 9 && |names[7]| == 24;
    assert names[3][2] != names[5][2] && names[2][2] != names[7][2];
  }

  /** In whatever order Reconcile's options are applied, the pod is the same up to the order
      of volumes and pairs, and its command line says the same. */
  lemma LaunchAnyOrder(podName: string, run: Key, owner: Owner, spec: RunSpec, image: string, ys: seq<PodOption>)
    requires multiset(ys) == multiset(LaunchOptions(podName, run, owner, spec, image))
    ensures EqualUpToOrder(LaunchPod(podName, run, owner, spec, image), NewPod(ys))
    ensures ParseArgs(NewPod(ys).containers[1].args).Some?
    ensures multiset(ParseArgs(NewPod(ys).containers[1].args).value) == multiset(BASE_FLAGS + RunFlags(spec))
  {
    var xs := LaunchOptions(podName, run, owner, spec, image);
    LaunchCommutes(podName, run, owner, spec, image);
    OrderIrrelevant(xs, ys);
    ArgsRoundTrip(podName, run, owner, spec, image);
  }
}
