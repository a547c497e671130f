/**
  The spell layer of initSpells.js: the looping frame-by-frame effect
  (`createFrameByFrameEffect`), `Spell`, `SpellManager`, and the five spells
  `initializeSpells` registers.

  A spell's `onCast` closure is modelled by what it does synchronously to the
  spell's own effect (`CastAction`); the timers, sounds and animation-mixer
  calls it schedules are outside the model. `Date.now()` is an explicit `now`.
 */
module SpellRegistry {
  import opened Wrappers
  import opened SpriteEffects
  import Arithmetic

  // ---------------------------------------------------------------------
  // The looping frame-by-frame effect

  /** The closure variables of `createFrameByFrameEffect`, `sprite.visible`, and the index of `material.map` in `textures`. */
  datatype LoopState = LoopState(
    isActive: bool,
    visible: bool,
    currentFrame: nat,
    lastFrameTime: int,
    mapIndex: nat
  )

  /** What every reachable state satisfies: the sprite shows exactly while active, and shows the current frame. */
  ghost predicate LoopInv(totalFrames: int, s: LoopState) {
    s.visible == s.isActive && s.currentFrame < totalFrames && s.mapIndex == s.currentFrame
  }

  /** The state right after `createFrameByFrameEffect` returns. */
  function LoopInitial(): (s: LoopState)
    ensures !s.isActive && !s.visible && s.currentFrame == 0 && s.mapIndex == 0
  {
    LoopState(false, false, 0, 0, 0)
  }

  /** `toggle()`. */
  function Toggled(s: LoopState): (r: LoopState)
    ensures r.isActive == !s.isActive && r.visible == r.isActive
    ensures r.currentFrame == s.currentFrame && r.lastFrameTime == s.lastFrameTime && r.mapIndex == s.mapIndex
  {
    var active := !s.isActive;
    s.(isActive := active, visible := active)
  }

  /** Toggling twice restores the state, frame and all. */
  lemma ToggledTwice(s: LoopState)
    requires s.visible == s.isActive
    ensures Toggled(Toggled(s)) == s
  {
  }

  /** Whether `update()` at time `now` moves on to the next texture. */
  predicate LoopAdvances(frameInterval: int, s: LoopState, now: int) {
    s.isActive && now - s.lastFrameTime >= frameInterval
  }

  /** `update()`: step to the next texture, wrapping around after the last. */
  function LoopUpdated(totalFrames: int, frameInterval: int, s: LoopState, now: int): (r: LoopState)
    requires totalFrames >= 1
    ensures !LoopAdvances(frameInterval, s, now) ==> r == s
    ensures LoopAdvances(frameInterval, s, now) ==>
      && r.lastFrameTime == now
      && r.currentFrame == (s.currentFrame + 1) % totalFrames
      && r.mapIndex == r.currentFrame
    ensures r.isActive == s.isActive && r.visible == s.visible
    ensures LoopInv(totalFrames, s) ==> LoopInv(totalFrames, r)
  {
    if LoopAdvances(frameInterval, s, now) then
      var frame := (s.currentFrame + 1) % totalFrames;
      s.(lastFrameTime := now, currentFrame := frame, mapIndex := frame)
    else
      s
  }

  /** The state after successive `update()` calls at `times`. */
  function LoopRun(totalFrames: int, frameInterval: int, s: LoopState, times: seq<int>): (r: LoopState)
    requires totalFrames >= 1
    decreases |times|
  {
    if times == [] then s
    else LoopRun(totalFrames, frameInterval, LoopUpdated(totalFrames, frameInterval, s, times[0]), times[1..])
  }

  /** Updates never switch the effect on or off: only `toggle()` does. */
  lemma {:induction false} LoopRunKeepsActivity(totalFrames: int, frameInterval: int, s: LoopState, times: seq<int>)
    requires totalFrames >= 1
    ensures var r := LoopRun(totalFrames, frameInterval, s, times);
      r.isActive == s.isActive && r.visible == s.visible
    decreases |times|
  {
    if times != [] {
      LoopRunKeepsActivity(totalFrames, frameInterval, LoopUpdated(totalFrames, frameInterval, s, times[0]), times[1..]);
    }
  }

  /** An active effect updated at spaced times cycles through its textures: n updates move it n frames on, modulo the count. */
  lemma {:induction false} LoopRunWraps(totalFrames: int, frameInterval: int, s: LoopState, times: seq<int>)
    requires totalFrames >= 1 && LoopInv(totalFrames, s) && s.isActive
    requires Spaced(frameInterval, s.lastFrameTime, times)
    ensures var r := LoopRun(totalFrames, frameInterval, s, times);
      && LoopInv(totalFrames, r) && r.isActive
      && r.currentFrame == (s.currentFrame + |times|) % totalFrames
    decreases |times|
  {
    if times != [] {
      var next := LoopUpdated(totalFrames, frameInterval, s, times[0]);
      LoopRunWraps(totalFrames, frameInterval, next, times[1..]);
      Arithmetic.ModAddOne(s.currentFrame, |times| - 1, totalFrames);
    }
  }

  /** The effect object `createFrameByFrameEffect` returns. */
  class FrameByFrameEffect {
    const totalFrames: int      // textures.length
    const frameInterval: int
    var isActive: bool
    var visible: bool
    var currentFrame: nat
    var lastFrameTime: int
    var mapIndex: nat

    function State(): (s: LoopState)
      reads this
    {
      LoopState(isActive, visible, currentFrame, lastFrameTime, mapIndex)
    }

    ghost predicate Valid()
      reads this
    {
      totalFrames >= 1 && LoopInv(totalFrames, State())
    }

    /** An effect over `textureCount` textures, shown from the first; hidden and inactive. */
    constructor (textureCount: int, frameInterval: int)
      requires textureCount >= 1
      ensures totalFrames == textureCount && this.frameInterval == frameInterval
      ensures State() == LoopInitial()
      ensures Valid()
    {
      totalFrames := textureCount;
      this.frameInterval := frameInterval;
      isActive, visible := false, false;
      currentFrame, lastFrameTime, mapIndex := 0, 0, 0;
    }

    method Toggle()
      requires Valid()
      modifies this
      ensures Valid()
      ensures State() == Toggled(old(State()))
    {
      isActive := !isActive;
      visible := isActive;
    }

    method Update(now: int)
      requires Valid()
      modifies this
      ensures Valid()
      ensures State() == LoopUpdated(totalFrames, frameInterval, old(State()), now)
    {
      if isActive {
        if now - lastFrameTime >= frameInterval {
          lastFrameTime := now;
          currentFrame := (currentFrame + 1) % totalFrames;
          mapIndex := currentFrame;
        }
      }
    }
  }

  // ---------------------------------------------------------------------
  // Spells

  /** What a registered `onCast` does at once to its spell: start the effect, toggle it, or darken the background. */
  datatype CastAction = StartEffect | ToggleEffect | DarkenBackground

  /** The colour `onCast` of the lightning spell gives the background. */
  const Dark := Rgb(0.1, 0.1, 0.1)

  /** A spell's effect: none (`null`), a one-shot sprite-sheet effect, or a looping frame-by-frame one. */
  datatype Effect = NoEffect | OneShot(sprite: SpriteEffect) | Looping(aura: FrameByFrameEffect)

  /** The value of an effect's state. */
  datatype EffectView =
    | NoView
    | OneShotView(sheet: Sheet, sprite: SpriteState)
    | LoopingView(totalFrames: int, frameInterval: int, loop: LoopState)

  ghost predicate ViewValid(v: EffectView) {
    match v
    case NoView => true
    case OneShotView(sheet, s) => ValidSheet(sheet) && Inv(sheet, s)
    case LoopingView(n, _, s) => n >= 1 && LoopInv(n, s)
  }

  /** The effect state after `cast()` of a spell whose `onCast` is `action`. */
  function CastView(action: Option<CastAction>, v: EffectView, now: int): (r: EffectView)
    ensures action.None? ==> r == v
    ensures action == Some(StartEffect) && v.OneShotView? ==> r == v.(sprite := StartState(v.sprite, now))
    ensures action == Some(ToggleEffect) && v.LoopingView? ==> r == v.(loop := Toggled(v.loop))
    ensures action == Some(DarkenBackground) ==> r == v
    ensures ViewValid(v) ==> ViewValid(r)
  {
    match action
    case None => v
    case Some(StartEffect) => if v.OneShotView? then v.(sprite := StartState(v.sprite, now)) else v
    case Some(ToggleEffect) => if v.LoopingView? then v.(loop := Toggled(v.loop)) else v
    case Some(DarkenBackground) => v
  }

  /** The effect state after one `update()`. */
  function UpdateView(v: EffectView, now: int): (r: EffectView)
    requires ViewValid(v)
    ensures ViewValid(r)
  {
    match v
    case NoView => NoView
    case OneShotView(sheet, s) => OneShotView(sheet, UpdateTick(sheet, s, now).next)
    case LoopingView(n, gap, s) => LoopingView(n, gap, LoopUpdated(n, gap, s, now))
  }

  /** Whether this update plays the last frame of a one-shot effect (which then resets the background to white). */
  predicate CompletesOn(v: EffectView, now: int)
    requires ViewValid(v)
  {
    v.OneShotView? && UpdateTick(v.sheet, v.sprite, now).completed
  }

  /** The `Spell` class; `casts` counts how often `onCast` has run. */
  class Spell {
    const name: string
    const key: string
    const onCast: Option<CastAction>
    const effect: Effect
    ghost var casts: nat

    function EffectObjects(): (objects: set<object>) {
      match effect
      case NoEffect => {}
      case OneShot(s) => {s}
      case Looping(a) => {a}
    }

    /** The background material a one-shot effect resets, and the lightning spell darkens. */
    function Background(): (material: Material?) {
      if effect.OneShot? then effect.sprite.backgroundMaterial else null
    }

    /** Everything `cast` and `update` may change besides the spell itself. */
    function Footprint(): (objects: set<object>) {
      EffectObjects() + if Background() != null then {Background()} else {}
    }

    function View(): (v: EffectView)
      reads EffectObjects()
    {
      match effect
      case NoEffect => NoView
      case OneShot(s) => OneShotView(s.sheet, s.State())
      case Looping(a) => LoopingView(a.totalFrames, a.frameInterval, a.State())
    }

    /**
      The effect is in a reachable state, and `onCast` only calls what its
      effect has: `start` on a one-shot effect, `toggle` on a looping one.
     */
    ghost predicate Valid()
      reads EffectObjects()
    {
      && ViewValid(View())
      && (onCast == Some(StartEffect) ==> effect.OneShot?)
      && (onCast == Some(ToggleEffect) ==> effect.Looping?)
    }

    constructor (name: string, key: string, onCast: Option<CastAction>, effect: Effect)
      requires onCast == Some(StartEffect) ==> effect.OneShot?
      requires onCast == Some(ToggleEffect) ==> effect.Looping?
      requires match effect
        case NoEffect => true
        case OneShot(s) => s.Valid()
        case Looping(a) => a.Valid()
      ensures this.name == name && this.key == key && this.onCast == onCast && this.effect == effect
      ensures casts == 0 && Valid()
    {
      this.name := name;
      this.key := key;
      this.onCast := onCast;
      this.effect := effect;
      casts := 0;
    }

    method Cast(now: int)
      requires Valid()
      modifies this, Footprint()
      ensures Valid()
      ensures casts == old(casts) + (if onCast.Some? then 1 else 0)
      ensures View() == CastView(onCast, old(View()), now)
      ensures Background() != null ==>
        Background().color == if onCast == Some(DarkenBackground) then Dark else old(Background().color)
    {
      if onCast.Some? {
        casts := casts + 1;
        match onCast.value
        case StartEffect =>
          effect.sprite.Start(now);
        case ToggleEffect =>
          effect.aura.Toggle();
        case DarkenBackground =>
          if Background() != null {
            Background().color := Dark;
          }
      }
    }

    method Update(now: int)
      requires Valid()
      modifies Footprint()
      ensures Valid()
      ensures View() == UpdateView(old(View()), now)
      ensures Background() != null ==>
        Background().color == if CompletesOn(old(View()), now) then White else old(Background().color)
    {
      match effect
      case NoEffect =>
      case OneShot(s) => s.Update(now);
      case Looping(a) => a.Update(now);
    }
  }

  // ---------------------------------------------------------------------
  // The spell manager

  /** The key of each spell, in order. */
  function Keys(spells: seq<Spell>): (keys: seq<string>)
    ensures |keys| == |spells|
    ensures forall i :: 0 <= i < |spells| ==> keys[i] == spells[i].key
  {
    seq(|spells|, i requires 0 <= i < |spells| => spells[i].key)
  }

  /** `spells.find(s => s.key === key)`, as an index: the first position holding `key`, if any. */
  function FindKey(keys: seq<string>, key: string): (found: Option<nat>)
    ensures found.Some? ==>
      found.value < |keys| && keys[found.value] == key
      && forall j :: 0 <= j < found.value ==> keys[j] != key
    ensures found.None? ==> key !in keys
  {
    if keys == [] then None
    else if keys[0] == key then Some(0)
    else
      match FindKey(keys[1..], key)
      case None => None
      case Some(i) => Some(i + 1)
  }

  ghost predicate Distinct(keys: seq<string>) {
    forall i, j :: 0 <= i < j < |keys| ==> keys[i] != keys[j]
  }

  /** With distinct keys, each key finds its own position. */
  lemma FindKeyOfDistinct(keys: seq<string>, i: nat)
    requires Distinct(keys) && i < |keys|
    ensures FindKey(keys, keys[i]) == Some(i)
  {
    assert keys[i] in keys;
  }

  /**
    The effect states after `update` has reached the first `count` spells,
    spell `j` having read the clock as `times[j]`.
   */
  function UpdatedViews(views: seq<EffectView>, count: nat, times: seq<int>): (r: seq<EffectView>)
    requires count <= |views| == |times| && forall j :: 0 <= j < |views| ==> ViewValid(views[j])
    ensures |r| == |views|
    ensures forall j :: 0 <= j < |views| ==> r[j] == if j < count then UpdateView(views[j], times[j]) else views[j]
  {
    seq(|views|, j requires 0 <= j < |views| => if j < count then UpdateView(views[j], times[j]) else views[j])
  }

  /** Updating the next spell extends the updated prefix by one. */
  lemma UpdatedViewsStep(views: seq<EffectView>, count: nat, times: seq<int>)
    requires count < |views| == |times| && forall j :: 0 <= j < |views| ==> ViewValid(views[j])
    ensures UpdatedViews(views, count, times)[count := UpdateView(views[count], times[count])]
      == UpdatedViews(views, count + 1, times)
  {
  }

  /**
    Whether updating the first `count` spells, whose effect states were
    `views` and which read the clock as `times`, plays the last frame of a
    one-shot effect whose background is `m`.
   */
  predicate ResetsBackground(spells: seq<Spell>, views: seq<EffectView>, count: nat, m: Material, times: seq<int>)
    requires count <= |spells| == |views| == |times| && forall j :: 0 <= j < |views| ==> ViewValid(views[j])
  {
    count > 0 &&
      (ResetsBackground(spells, views, count - 1, m, times)
       || (spells[count - 1].Background() == m && CompletesOn(views[count - 1], times[count - 1])))
  }

  /** A background is reset exactly when one of the updated spells that owns it completes its effect. */
  lemma {:induction false} ResetsBackgroundWitness(spells: seq<Spell>, views: seq<EffectView>, count: nat, m: Material,
                                                   times: seq<int>)
    requires count <= |spells| == |views| == |times| && forall j :: 0 <= j < |views| ==> ViewValid(views[j])
    ensures ResetsBackground(spells, views, count, m, times) <==>
      exists j :: 0 <= j < count && spells[j].Background() == m && CompletesOn(views[j], times[j])
  {
    if count > 0 {
      ResetsBackgroundWitness(spells, views, count - 1, m, times);
      if spells[count - 1].Background() == m && CompletesOn(views[count - 1], times[count - 1]) {
        assert 0 <= count - 1 < count;
      }
    }
  }

  /**
    Each spell reads the clock itself: in one round `w` may read 1049 and the
    aura 1050, both having last moved at 1000. Then the aura moves on and `w`
    waits, which no single reading for the whole round gives.
   */
  lemma SeparateReadingsInOneRound()
    ensures
      var w := OneShotView(Sheet(4, 4, 16), SpriteState(true, true, 3, 1000, None));
      var aura := LoopingView(32, 50, LoopState(true, true, 0, 1000, 0));
      && UpdatedViews([w, aura], 2, [1049, 1050]) == [w, LoopingView(32, 50, LoopState(true, true, 1, 1050, 1))]
      && forall now: int :: (UpdatedViews([w, aura], 2, [now, now])[0] == w) == (UpdatedViews([w, aura], 2, [now, now])[1] == aura)
  {
  }

  /** `SpellManager`: the registered spells, in registration order. */
  class SpellManager {
    var spells: seq<Spell>
    /** The registered spells' effects and background materials. */
    ghost var Repr: set<object>

    /** Every spell is valid, and no two registrations share a spell object or an effect. */
    ghost predicate Valid()
      reads this, Repr
    {
      && (forall i :: 0 <= i < |spells| ==> spells[i].Footprint() <= Repr && spells[i].Valid())
      && (forall i, j :: 0 <= i < j < |spells| ==>
            spells[i] != spells[j] && spells[i].EffectObjects() !! spells[j].EffectObjects())
    }

    constructor ()
      ensures spells == [] && Repr == {} && Valid()
    {
      spells := [];
      Repr := {};
    }

    method AddSpell(spell: Spell)
      requires Valid() && spell.Valid()
      requires spell !in spells && spell.EffectObjects() !! Repr
      modifies this
      ensures Valid()
      ensures spells == old(spells) + [spell]
      ensures Repr == old(Repr) + spell.Footprint()
      ensures Views() == old(Views()) + [spell.View()]
    {
      spells := spells + [spell];
      Repr := Repr + spell.Footprint();
    }

    /** `castSpellByKey(key)`: casts the first spell registered under `key`, if there is one. */
    method CastSpellByKey(key: string, now: int)
      requires Valid()
      modifies spells, Repr
      ensures Valid() && spells == old(spells) && Repr == old(Repr)
      ensures var found := FindKey(Keys(spells), key);
        Views() == if found.Some? then
          old(Views())[found.value := CastView(spells[found.value].onCast, old(Views())[found.value], now)]
        else old(Views())
      ensures var found := FindKey(Keys(spells), key);
        forall j :: 0 <= j < |spells| ==>
          spells[j].casts == old(spells[j].casts) + (if found == Some(j) && spells[j].onCast.Some? then 1 else 0)
      ensures var found := FindKey(Keys(spells), key);
        forall m: Material | m in old(Repr) ::
          m.color == if found.Some? && spells[found.value].onCast == Some(DarkenBackground)
                        && spells[found.value].Background() == m
                     then Dark else old(m.color)
    {
      var found := FindKey(Keys(spells), key);
      if found.Some? {
        CastSpellAt(found.value, now);
      }
    }

    /** `spell.cast()` on the spell at position `i`: only its effect, its counter and its background change. */
    method CastSpellAt(i: nat, now: int)
      requires Valid() && i < |spells|
      modifies spells[i], spells[i].Footprint()
      ensures unchanged(this) && Valid()
      ensures Views() == old(Views())[i := CastView(spells[i].onCast, old(Views())[i], now)]
      ensures forall j :: 0 <= j < |spells| ==>
        spells[j].casts == old(spells[j].casts) + (if j == i && spells[j].onCast.Some? then 1 else 0)
      ensures forall m: Material | m in old(Repr) ::
        m.color == if spells[i].onCast == Some(DarkenBackground) && spells[i].Background() == m
                   then Dark else old(m.color)
    {
      spells[i].Cast(now);
      forall j | 0 <= j < |spells| && j != i
        ensures spells[j].View() == old(spells[j].View()) && spells[j].Valid()
      {
        assert spells[i].EffectObjects() !! spells[j].EffectObjects() by {
          if i < j { } else { }
        }
      }
    }

    /** The effect state of every registered spell, in order. */
    ghost function Views(): (views: seq<EffectView>)
      requires Valid()
      reads this, Repr
      ensures |views| == |spells|
      ensures forall j :: 0 <= j < |spells| ==> views[j] == spells[j].View() && ViewValid(views[j])
    {
      seq(|spells|, j requires 0 <= j < |spells| && Valid() reads this, Repr => spells[j].View())
    }

    /**
      `update()`: updates every spell once, in registration order. Each
      effect reads `Date.now()` itself, so spell `i` is updated at `times[i]`,
      the `i`-th reading of the round.
     */
    method Update(times: seq<int>)
      requires Valid() && |times| == |spells|
      modifies Repr
      ensures Valid() && spells == old(spells) && Repr == old(Repr)
      ensures Views() == UpdatedViews(old(Views()), |spells|, times)
      ensures forall m: Material | m in old(Repr) ::
        m.color == if ResetsBackground(spells, old(Views()), |spells|, m, times) then White else old(m.color)
    {
      ghost var before := Views();
      var i := 0;
      while i < |spells|
        invariant 0 <= i <= |spells| && spells == old(spells) && Repr == old(Repr) && Valid()
        invariant Views() == UpdatedViews(before, i, times)
        invariant forall m: Material | m in old(Repr) ::
          m.color == if ResetsBackground(spells, before, i, m, times) then White else old(m.color)
      {
        UpdateSpellAt(i, times[i]);
        UpdatedViewsStep(before, i, times);
        i := i + 1;
      }
    }

    /** `spells[i].update()`, seen from the manager: only that spell's effect, and its background, change. */
    method UpdateSpellAt(i: nat, now: int)
      requires Valid() && i < |spells|
      modifies spells[i].Footprint()
      ensures unchanged(this) && Valid()
      ensures Views() == old(Views())[i := UpdateView(old(Views())[i], now)]
      ensures forall m: Material | m in old(Repr) ::
        m.color == if spells[i].Background() == m && CompletesOn(old(Views())[i], now) then White else old(m.color)
    {
      spells[i].Update(now);
      forall j | 0 <= j < |spells| && j != i
        ensures spells[j].View() == old(spells[j].View()) && spells[j].Valid()
      {
        assert spells[i].EffectObjects() !! spells[j].EffectObjects() by {
          if i < j { } else { }
        }
      }
    }
  }

  // ---------------------------------------------------------------------
  // The registered spells

  /** The keys `initializeSpells` registers, in order. */
  const SpellKeys: seq<string> := ["r", "w", "d", "q", "e"]

  /** The names of those spells. */
  const SpellNames: seq<string> := ["Lightning Strike", "Electric Shock", "Aura", "Lightning Bolt", "Test Lightning"]

  /** What each spell's `onCast` does at once to its own effect or the background. */
  const SpellCasts: seq<CastAction> := [DarkenBackground, StartEffect, ToggleEffect, StartEffect, StartEffect]

  /** The state of each spell's effect when it is registered. */
  const SpellViews: seq<EffectView> := [
    OneShotView(Sheet(6, 5, 30), InitialState()),
    OneShotView(Sheet(4, 4, 16), InitialState()),
    LoopingView(32, 50, LoopInitial()),
    OneShotView(Sheet(3, 3, 9), InitialState()),
    OneShotView(Sheet(3, 3, 9), InitialState())
  ]

  /** A spell over a fresh `createSpriteEffect` effect with a `columns` by `rows` sheet. */
  method NewSheetSpell(name: string, key: string, onCast: CastAction,
                       columns: int, rows: int, totalFrames: int, backgroundMaterial: Material?)
    returns (spell: Spell)
    requires columns >= 1 && rows >= 1 && onCast != ToggleEffect
    ensures fresh(spell) && fresh(spell.EffectObjects()) && spell.Valid()
    ensures spell.name == name && spell.key == key && spell.onCast == Some(onCast)
    ensures spell.Background() == backgroundMaterial
    ensures spell.View() == OneShotView(Sheet(columns, rows, totalFrames), InitialState())
  {
    var effect := new SpriteEffect(columns, rows, totalFrames, backgroundMaterial);
    spell := new Spell(name, key, Some(onCast), OneShot(effect));
  }

  /** The aura spell: a fresh `createFrameByFrameEffect` effect over 32 textures, toggled on cast. */
  method NewAuraSpell() returns (spell: Spell)
    ensures fresh(spell) && fresh(spell.EffectObjects()) && spell.Valid()
    ensures spell.name == SpellNames[2] && spell.key == SpellKeys[2] && spell.onCast == Some(ToggleEffect)
    ensures spell.Background() == null
    ensures spell.View() == SpellViews[2]
  {
    var effect := new FrameByFrameEffect(32, 50);
    spell := new Spell(SpellNames[2], SpellKeys[2], Some(ToggleEffect), Looping(effect));
  }

  /**
    After `initializeSpells` has registered its first `count` spells on a
    manager that held `base`, whose effect states were `baseViews`: the
    new spells follow `base`, in order, with their keys, names, cast
    actions, effect states and background.
   */
  ghost predicate Registered(manager: SpellManager, base: seq<Spell>, baseViews: seq<EffectView>,
                             backgroundMaterial: Material?, count: nat)
    requires manager.Valid()
    reads manager, manager.Repr
  {
    && count <= |SpellKeys|
    && |manager.spells| == |base| + count
    && manager.spells[..|base|] == base
    && Keys(manager.spells) == Keys(base) + SpellKeys[..count]
    && manager.Views() == baseViews + SpellViews[..count]
    && forall k :: 0 <= k < count ==>
      var spell := manager.spells[|base| + k];
      && spell.name == SpellNames[k]
      && spell.onCast == Some(SpellCasts[k])
      && spell.Background() == if SpellViews[k].OneShotView? then backgroundMaterial else null
  }

  /**
    `initializeSpells`: registers the five spells, in order, with the manager.
    Every one-shot effect resets `backgroundMaterial`; the looping aura has no background.
   */
  method InitializeSpells(manager: SpellManager, backgroundMaterial: Material?)
    requires manager.Valid()
    modifies manager
    ensures manager.Valid()
    ensures Registered(manager, old(manager.spells), old(manager.Views()), backgroundMaterial, |SpellKeys|)
    ensures forall k :: |old(manager.spells)| <= k < |manager.spells| ==>
      fresh(manager.spells[k]) && fresh(manager.spells[k].EffectObjects())
  {
    ghost var base, baseViews := manager.spells, manager.Views();
    assert Registered(manager, base, baseViews, backgroundMaterial, 0);
    var lightning := RegisterSheetSpell(manager, base, baseViews, backgroundMaterial, 0, 6, 5, 30);
    var electricShock := RegisterSheetSpell(manager, base, baseViews, backgroundMaterial, 1, 4, 4, 16);
    var aura := RegisterAuraSpell(manager, base, baseViews, backgroundMaterial);
    var smallLightning := RegisterSheetSpell(manager, base, baseViews, backgroundMaterial, 3, 3, 3, 9);
    var testLightning := RegisterSheetSpell(manager, base, baseViews, backgroundMaterial, 4, 3, 3, 9);
    ghost var added := [lightning, electricShock, aura, smallLightning, testLightning];
    AppendedFive(manager.spells, base, added);
    forall k | |base| <= k < |manager.spells|
      ensures fresh(manager.spells[k]) && fresh(manager.spells[k].EffectObjects())
    {
      var j := k - |base|;
      assert manager.spells[k] == added[j];
      assert j == 0 || j == 1 || j == 2 || j == 3 || j == 4;
    }
  }

  /** Five single appends to `base` leave the five added elements after it, in order. */
  lemma AppendedFive<T>(spells: seq<T>, base: seq<T>, added: seq<T>)
    requires |added| == 5
    requires spells == base + [added[0]] + [added[1]] + [added[2]] + [added[3]] + [added[4]]
    ensures forall k :: |base| <= k < |spells| ==> spells[k] == added[k - |base|]
  {
    assert spells == base + added;
  }

  /** Creates the `count`-th spell over a `columns` by `rows` sprite sheet, and adds it to the manager. */
  method RegisterSheetSpell(manager: SpellManager, ghost base: seq<Spell>, ghost baseViews: seq<EffectView>,
                            backgroundMaterial: Material?, count: nat, columns: int, rows: int, totalFrames: int)
    returns (spell: Spell)
    requires manager.Valid() && Registered(manager, base, baseViews, backgroundMaterial, count)
    requires count < |SpellKeys| && SpellCasts[count] != ToggleEffect && columns >= 1 && rows >= 1
    requires SpellViews[count] == OneShotView(Sheet(columns, rows, totalFrames), InitialState())
    modifies manager
    ensures manager.Valid()
    ensures Registered(manager, base, baseViews, backgroundMaterial, count + 1)
    ensures manager.spells == old(manager.spells) + [spell] && fresh(spell) && fresh(spell.EffectObjects())
  {
    spell := NewSheetSpell(SpellNames[count], SpellKeys[count], SpellCasts[count], columns, rows, totalFrames, backgroundMaterial);
    Register(manager, spell, base, baseViews, backgroundMaterial, count);
  }

  /** Creates the aura spell, third in order, and adds it to the manager. */
  method RegisterAuraSpell(manager: SpellManager, ghost base: seq<Spell>, ghost baseViews: seq<EffectView>,
                           backgroundMaterial: Material?)
    returns (spell: Spell)
    requires manager.Valid() && Registered(manager, base, baseViews, backgroundMaterial, 2)
    modifies manager
    ensures manager.Valid()
    ensures Registered(manager, base, baseViews, backgroundMaterial, 3)
    ensures manager.spells == old(manager.spells) + [spell] && fresh(spell) && fresh(spell.EffectObjects())
  {
    spell := NewAuraSpell();
    Register(manager, spell, base, baseViews, backgroundMaterial, 2);
  }

  /** `spellManager.addSpell(...)` for the spell `initializeSpells` creates `count`-th. */
  method Register(manager: SpellManager, spell: Spell, ghost base: seq<Spell>, ghost baseViews: seq<EffectView>,
                  backgroundMaterial: Material?, count: nat)
    requires manager.Valid() && spell.Valid() && count < |SpellKeys|
    requires Registered(manager, base, baseViews, backgroundMaterial, count)
    requires spell !in manager.spells && spell.EffectObjects() !! manager.Repr
    requires spell.name == SpellNames[count] && spell.key == SpellKeys[count]
    requires spell.onCast == Some(SpellCasts[count]) && spell.View() == SpellViews[count]
    requires spell.Background() == if SpellViews[count].OneShotView? then backgroundMaterial else null
    modifies manager
    ensures manager.Valid()
    ensures Registered(manager, base, baseViews, backgroundMaterial, count + 1)
    ensures manager.spells == old(manager.spells) + [spell]
  {
    manager.AddSpell(spell);
    assert SpellKeys[..count + 1] == SpellKeys[..count] + [SpellKeys[count]];
    assert SpellViews[..count + 1] == SpellViews[..count] + [SpellViews[count]];
    assert manager.spells[..|base|] == old(manager.spells)[..|base|];
    assert Keys(manager.spells) == Keys(old(manager.spells)) + [spell.key];
  }

  /** The five keys differ, so each one casts the spell registered under it. */
  lemma SpellKeysDispatch(k: nat)
    requires k < |SpellKeys|
    ensures FindKey(SpellKeys, SpellKeys[k]) == Some(k)
  {
    assert Distinct(SpellKeys);
    FindKeyOfDistinct(SpellKeys, k);
  }
}
