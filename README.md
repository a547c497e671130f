# sectatores: tile map, sprite-sheet effects and spell registry in Dafny

This project models the logic of the isometric game prototype *sectatores*
that is not scene wiring: the tile grid, the one-shot sprite-sheet effect,
the looping frame-by-frame effect and the spell registry. It proves
properties of that model.

- `map_generator.dfy` (module `MapGenerator`) is `MapGenerator.js`.
  - `Map` is a class whose `tiles` field is a sequence of columns of `Tile` values.
  - The constructor fills it column by column, with nested loops, as the source does.
  - `SetTerrain` and `PlaceObject` are specified by the pure grid edits `WithTerrain` and `WithObject`.
  - Those edits are shown to touch one field of one cell, to do nothing out of range, to be idempotent and to commute with each other.
- `sprite_effect.dfy` (module `SpriteEffects`) is `createSpriteEffect` of `spells.js`.
  - `SpriteEffect` is a class holding the closure variables, `plane.visible` and the atlas cell last written to the texture offset.
  - `loaded` stands for "the texture callback has created `plane`".
  - `Date.now()` is an explicit `now` argument.
  - `FrameCell` maps a linear frame to its `(col, row)` cell.
  - `UpdateTick` specifies `update()`, and `Ticks` folds it over a sequence of update times.
  - `OneShotPlayback` proves the whole one-shot run: after `start()`, spaced updates write frames 0 … totalFrames−1, and the last of them hides the plane and completes the run.
  - The background reset on completion is stated by `SpriteEffect.Update`: the background turns white exactly when that update completes.
- `init_spells.dfy` (module `SpellRegistry`) is `initSpells.js`.
  - `FrameByFrameEffect` is the looping effect of `createFrameByFrameEffect`.
  - `Spell` forwards `cast`/`update` to its effect.
  - `SpellManager` is the ordered registry.
  - `InitializeSpells` registers the five spells of the game.
  - A spell's `onCast` closure is modelled by what it does synchronously to its own effect (`CastAction`: start it, toggle it, or darken the background).
  - A ghost counter `casts` on each spell records how often `onCast` ran, so "only the first spell with the key was cast" is stated.
  - Each effect's state is observed through `View()`, a value of `EffectView`.
  - The manager's `Views()` collects those values in registration order.
  - Each effect reads `Date.now()` itself, so `SpellManager.Update` takes one reading per spell: spell `i` is updated at `times[i]`.
- `wrappers.dfy` holds `Option`, and `arithmetic.dfy` holds facts about Euclidean remainder used for the looping effect's wrap-around.

Behaviours of the source that the model keeps as written:

- The last frame is never shown in its own turn. The update that writes the last cell's texture offset is the same update that sets `plane.visible = false` (spells.js:91-98). That cell is shown at the start of the next run instead (see the next item).
- In the first run, the plane starts with the texture's load-time offset (0, 0) and repeat (1/columns, 1/rows) (spells.js:15-22). That is cell (0, rows−1), shown until the first advancing update. In the model this is `shown == None`: no offset written yet.
- `start()` does not touch the texture offset (spells.js:72-78). Until the first advancing update, a restarted effect still shows the cell written last, so in a second run that is the last cell of the previous run. The model keeps that cell in `shown` and `StartState` leaves it unchanged.
- All one-shot effects share the one `backgroundMaterial` (initSpells.js:68, :139, :202, :239). `SpellManager.Update` therefore turns it white when any of them completes in that round (`ResetsBackground`).

## Model

| member | source | states |
|---|---|---|
| MapGenerator.Map.constructor | MapGenerator.js:12-24 | the grid has `width` columns of `height` tiles (none when a dimension is not positive), and tile (x, y) is `Tile(x, y, "grass", None)` |
| MapGenerator.Map.IsValidTile | MapGenerator.js:39-41 | on a well-formed map, true exactly when (x, y) is a cell of the grid, i.e. `0 <= x < width && 0 <= y < height` |
| MapGenerator.WithTerrain | MapGenerator.js:27-31 | the grid keeps its shape; only the terrain of tile (x, y) becomes `terrainType`, every coordinate and object is kept; out of range the grid is unchanged |
| MapGenerator.Map.SetTerrain | MapGenerator.js:27-31 | the new tiles are `WithTerrain` of the old ones, and the map stays well formed (dimensions and tile coordinates) |
| MapGenerator.WithObject | MapGenerator.js:33-37 | the grid keeps its shape; only the object of tile (x, y) becomes `objectType`, every coordinate and terrain is kept; out of range the grid is unchanged |
| MapGenerator.Map.PlaceObject | MapGenerator.js:33-37 | the new tiles are `WithObject` of the old ones, and the map stays well formed |
| MapGenerator.WithTerrainIdempotent | MapGenerator.js:27-31 | setting the same terrain twice gives the grid that setting it once gives |
| MapGenerator.WithObjectIdempotent | MapGenerator.js:33-37 | placing the same object twice gives the grid that placing it once gives |
| MapGenerator.TerrainAndObjectCommute | MapGenerator.js:27-37 | a terrain edit and an object edit, at any cells, give the same grid in either order |
| SpriteEffects.FrameCell | spells.js:85-86 | the cell of any frame lies in the atlas: `0 <= col < columns` and `0 <= row < rows` |
| SpriteEffects.FrameCellRoundTrip | spells.js:85-86 | within one pass over the atlas (`frame < columns * rows`) `row * columns + col` gives the frame back, so distinct frames show distinct cells |
| SpriteEffects.SampledRectangleInsideCell | spells.js:88-93 | for atlases under 1000 columns and rows, the rectangle given by the offset and repeat written for a cell lies strictly inside that cell, and so inside the texture |
| SpriteEffects.SpriteEffect.constructor | spells.js:2-8 | a new effect has no plane yet, is hidden, is at frame 0 and has written no cell |
| SpriteEffects.SpriteEffect.OnTextureLoaded | spells.js:31-32 | once the plane exists it is hidden; frame, time and shown cell are kept |
| SpriteEffects.StartState | spells.js:72-78 | before the plane exists `start()` changes nothing; afterwards the effect is visible, at frame 0, with `lastFrameTime == now`, and the shown cell is kept |
| SpriteEffects.SpriteEffect.Start | spells.js:72-78 | the new state is `StartState` of the old one, and the invariant is kept |
| SpriteEffects.UpdateTick | spells.js:79-106 | nothing changes unless the plane exists, is visible and 50 ms have passed; an advancing update writes the current frame's cell, sets `lastFrameTime := now`, and either moves to the next frame or, exactly when that was the last frame, completes: hidden again and back at frame 0; `currentFrame < totalFrames` (or 0) is kept |
| SpriteEffects.SpriteEffect.Update | spells.js:79-106 | the new state is `UpdateTick`'s, and the background material turns white exactly when the update completes, else keeps its colour |
| SpriteEffects.PlaysRemainingFrames | spells.js:79-106 | from frame f, updates at least 50 ms apart write cells f, f+1, … in turn; each records its time, the plane stays visible until the last frame, and only the update that plays frame totalFrames−1 completes |
| SpriteEffects.OneShotPlayback | spells.js:72-106 | after `start()` on a loaded effect, totalFrames spaced updates write frames 0 … totalFrames−1; all but the last leave the plane visible; the last completes, hides it and resets the frame to 0 |
| SpriteEffects.IdleIgnoresUpdates | spells.js:79-80 | a hidden or unloaded effect ignores every update |
| SpellRegistry.FrameByFrameEffect.constructor | initSpells.js:260-285 | a new looping effect over n ≥ 1 textures is inactive, hidden and shows texture 0 |
| SpellRegistry.Toggled | initSpells.js:287-290 | `toggle()` flips `isActive`, makes `visible == isActive`, and keeps the frame, its time and the texture shown |
| SpellRegistry.ToggledTwice | initSpells.js:287-290 | toggling twice restores the state |
| SpellRegistry.FrameByFrameEffect.Toggle | initSpells.js:287-290 | the new state is `Toggled` of the old one, and the effect's invariant is kept |
| SpellRegistry.LoopUpdated | initSpells.js:291-298 | nothing changes unless active and `frameInterval` has passed; then `lastFrameTime := now` and the frame and texture move to `(frame + 1) % totalFrames`; activity and visibility never change; the invariant (shown texture = current frame < totalFrames, visible = active) is kept |
| SpellRegistry.FrameByFrameEffect.Update | initSpells.js:291-298 | the new state is `LoopUpdated` of the old one |
| SpellRegistry.LoopRunKeepsActivity | initSpells.js:291-306 | no sequence of updates switches the effect on or off |
| SpellRegistry.LoopRunWraps | initSpells.js:291-298 | an active effect updated n times, each at least `frameInterval` after the one before, is at frame `(f + n) % totalFrames`: it loops and never stops |
| SpellRegistry.Spell.constructor | initSpells.js:353-359 | name, key, `onCast` and effect (possibly none) are stored; no cast has happened |
| SpellRegistry.CastView | initSpells.js:361-365 | no `onCast` leaves the effect as it is; starting a one-shot effect is `StartState`, toggling a looping one is `Toggled`, darkening leaves the effect as it is |
| SpellRegistry.Spell.Cast | initSpells.js:361-365 | `casts` grows by one exactly when `onCast` is present; the effect's new state is `CastView`; the background turns dark exactly for the darkening spell |
| SpellRegistry.UpdateView | initSpells.js:367-371 | the body forwards a one-shot effect to `UpdateTick` and a looping one to `LoopUpdated`, and leaves no effect as it is; the contract states that validity is kept |
| SpellRegistry.Spell.Update | initSpells.js:367-371 | the effect's new state is `UpdateView` of the old one; the background turns white exactly when a one-shot effect completes |
| SpellRegistry.SpellManager.constructor | initSpells.js:376-378 | a new manager holds no spells and its footprint `Repr` is empty |
| SpellRegistry.SpellManager.AddSpell | initSpells.js:380-382 | the spell is appended after the existing ones, whose order and state are kept |
| SpellRegistry.FindKey | initSpells.js:389 | the result is the first position holding the key, with no earlier match; `None` exactly when no spell has the key |
| SpellRegistry.FindKeyOfDistinct | initSpells.js:389 | when keys are distinct, each key is found at its own position |
| SpellRegistry.SpellManager.CastSpellByKey | initSpells.js:388-393 | only the first spell with the key is cast: its `casts` and effect change as `Spell.Cast` says, every other spell is untouched; with no match nothing changes; only the darkening spell's background darkens |
| SpellRegistry.SpellManager.Update | initSpells.js:384-386 | every spell is updated once, spell `i` at its own clock reading `times[i]`: each effect's new state is `UpdateView` of its old one at that time; a background turns white exactly when `ResetsBackground` holds, else keeps its colour |
| SpellRegistry.ResetsBackgroundWitness | initSpells.js:384-386 | a background is reset by an update round exactly when some spell owning it completes its one-shot effect in that round |
| SpellRegistry.SeparateReadingsInOneRound | spells.js:79-82 | with `w` reading 1049 and the aura 1050 after both last moved at 1000, the aura advances and `w` does not; under any single reading for both, either both advance or neither does |
| SpellRegistry.NewSheetSpell | initSpells.js:123-161 | a fresh spell over a fresh hidden sprite-sheet effect of the given sheet, sharing `backgroundMaterial` |
| SpellRegistry.NewAuraSpell | initSpells.js:163-184 | the aura spell: key `d`, toggles a fresh 32-texture looping effect with a 50 ms interval |
| SpellRegistry.InitializeSpells | initSpells.js:28-46 | the manager gains, after its existing spells and in this order, keys `r, w, d, q, e` with their names, cast actions, initial effect states (sheets 6×5/30, 4×4/16, 3×3/9, 3×3/9 and the 32-texture aura) and background; the five spells and their effects are newly created |
| SpellRegistry.SpellKeysDispatch | initSpells.js:28-46 | the five registered keys are distinct, so each key casts the spell registered under it |

## Left out

- main.js is not part of this model (renderer, camera, input handlers, camera persistence, model loading, random tree and building placement), and neither is eslint.config.js.
- Texture loading is the `loaded` flag and `OnTextureLoaded`. The texture settings, the plane's creation and its insertion into the scene (spells.js:10-49) are not modelled. The spells registered by initSpells.js pass no `position` in their options, so reading `position.x` at spells.js:34 throws a TypeError: `scene.add(plane)` (:37) and the resize listeners (:39-48) never run, and no one-shot plane reaches the scene, although `plane` is already assigned and hidden (:31-32), which is what `loaded` records.
- `updatePlaneSizeAndPosition` and the resize listeners (spells.js:39-69) are floating-point geometry over the window and are not modelled. Neither are `sprite.position.copy`, `sprite.lookAt` and `plane.quaternion.copy`.
- The `onCast` closures' timers, sounds, animation-mixer calls and `flashModelWhite` (initSpells.js:74-116, 145-156, 208-216, 245-253, 311-350) are not modelled; only their synchronous effect on the spell's own effect or background is.
- The lightning spell starts its effect from a 1000 ms timer (initSpells.js:113-115). The model keeps only its synchronous darkening of the background, so casting it never starts its effect.
- `material.map = textures[currentFrame]` is the index `mapIndex`; textures themselves are not modelled.
- `Date.now()` is the explicit `now` argument, and in `SpellManager.Update` the explicit readings `times`; `update(deltaTime)` ignores its argument in the source, so the model has none.
- SpriteEffects.SpriteEffect.constructor: requires at least one column and one row. With zero, the source divides by zero and computes NaN cells, which the integer model cannot express.
- SpellRegistry.FrameByFrameEffect.constructor: requires at least one texture. With none, `% 0` gives NaN in the source.
- SpellRegistry.SpellManager.AddSpell: requires that the spell is not already registered and that its effect is not shared with a registered spell. The source allows both, but then a spell would be updated twice per round; every spell `initializeSpells` creates meets the requirement.
- SpellRegistry.Spell.constructor: requires that a starting `onCast` has a one-shot effect and a toggling one a looping effect. Every other pairing throws a TypeError in the source; all five registered spells meet the requirement.
- MapGenerator.Map.IsValidTile: the model's coordinates are integers; the source also accepts fractional numbers, for which `tiles[x]` is undefined.
- The lightning `onCast` and `initializeSpells` are modelled with `models.hero`, `actions.hero` and `mixers.hero` present.
  - Without `actions.hero`, the lightning `onCast` throws reading `heroActions.attack` (initSpells.js:75, 82), before it darkens the background (initSpells.js:109-111).
  - Without `mixers.hero` (and with the hero's attack and idle actions present), it throws at `mixers.hero.addEventListener` (initSpells.js:86), also before the darkening.
  - Without `models.hero`, `initializeSpells` throws inside `createAuraSpell` at `targetModel.position` (initSpells.js:282), after registering only `r` and `w`.
- SpellRegistry.SpellManager.Update: the readings `times` may be any integers; the model does not require them to be non-decreasing, as successive `Date.now()` readings normally are.
- Tiles are values, so the identity of the source's `Tile` objects, and aliasing of them, is not modelled.
- SpriteEffects.SampledRectangleInsideCell: proved over exact reals for atlases under 1000 columns and rows, not over IEEE doubles.
- The source has no `stop()` for either effect, no validation of the grid or frame parameters, and no rejection of duplicate keys. The model follows the code: duplicate keys are allowed and the first wins (`FindKey`).
