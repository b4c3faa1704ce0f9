/**
 The pipeline cache and its reusable create-info.

 One partially filled create-info is kept for all graphics pipelines. A creation writes what its key asks
 for over it, hands it to the device, and resets it. Whether the next creation sees traces of the last one
 depends on the reset undoing exactly those writes that a later creation might not make.
 */
module PipelinePool {
  import opened Wrappers

  // ---------------------------------------------------------------- keys

  /** A flag word, as the set of its bits. */
  type Flags = set<nat>

  const DEPTH_BIAS: Flags := {0}
  const CULL: Flags := {1}
  const CULL_FRONT: Flags := {1, 2}
  const INVERT_FRONT_FACE: Flags := {3}
  const NO_DEPTH_WRITE: Flags := {4}
  const STENCIL_ENABLE: Flags := {5}

  datatype CompareRequest = AnyOrNone | WantEqual | WantNotEqual
  datatype LogicRequest = NoLogic | WantReplace | CountDepthPass | CountDepthFail

  datatype Options = Options(
    flags: Flags, polygonMode: nat, compare: CompareRequest, logic: LogicRequest,
    reference: nat, compareMask: nat, writeMask: nat)

  /** What the fragment output contributes; the equality of keys ignores it. */
  datatype FragmentOut = FragmentOut(stencilFormat: nat, colorFormats: seq<nat>)

  /** Module, layout and pass handles are numbers, the null handle zero. */
  datatype Key = Key(
    topology: nat, attributes: seq<nat>, bindings: seq<nat>,
    vertexModule: nat, geometryModule: nat, fragmentModule: nat,
    viewports: seq<nat>, scissors: seq<nat>,
    out: FragmentOut, renderPass: nat, subpass: int, options: Options, layout: nat)

  const UNDEFINED_FORMAT: nat := 0

  /** The equality the cache compares keys with. */
  predicate SameKey(a: Key, b: Key) {
    a.(out := b.out) == b
  }

  /** The bitwise and of two flag words is not zero. */
  predicate Has(flags: Flags, mask: Flags) {
    flags * mask != {}
  }

  /** The bitwise and with the complement of a mask is not zero. */
  predicate HasBeyond(flags: Flags, mask: Flags) {
    flags - mask != {}
  }

  predicate IsLine(topology: nat) {
    topology == 1 || topology == 2 || topology == 6 || topology == 7
  }

  // ---------------------------------------------------------------- the create-info

  datatype Cull = CullNone | CullFront | CullBack
  datatype Compare = CompareNever | CompareEqual | CompareNotEqual | CompareAlways
  datatype StencilOp = Keep | Replace | IncrementAndWrap | DecrementAndWrap

  datatype Face = Face(
    failOp: StencilOp, passOp: StencilOp, depthFailOp: StencilOp, compare: Compare,
    compareMask: nat, writeMask: nat, reference: nat)

  const NO_FACE := Face(Keep, Keep, Keep, CompareNever, 0, 0, 0)

  datatype Raster = Raster(
    polygonMode: nat, cull: Cull, clockwise: bool, biasEnable: bool, biasConstant: int, biasClamp: int, biasSlope: int,
    lineWidth: int)

  const PLAIN_RASTER := Raster(0, CullBack, false, false, 1, 0, 1, 1)

  datatype Depth = Depth(writeEnable: bool, stencilEnable: bool, front: Face, back: Face)

  const PLAIN_DEPTH := Depth(true, false, NO_FACE, NO_FACE)

  datatype CreateInfo = CreateInfo(
    stageCount: nat, modules: seq<nat>,
    attributes: seq<nat>, bindings: seq<nat>, topology: nat,
    viewportCount: nat, scissorCount: nat,
    raster: Raster, depth: Depth,
    blendStates: nat, blendCount: nat,           // the attachment states, and how many the create-info announces
    dynamicStates: nat,
    layout: nat, derivative: bool, base: nat, renderPass: nat, subpass: int)

  const DYNAMIC_STATES: nat := 3

  /** As the constructor leaves it. */
  const TEMPLATE := CreateInfo(3, [0, 0, 0], [], [], 3, 0, 0, PLAIN_RASTER, PLAIN_DEPTH, 0, 0, 0, 0, false, 0, 0, 0)

  // ---------------------------------------------------------------- writing a key over the template

  function SetRaster(was: Raster, options: Options): Raster {
    var biased := if Has(options.flags, DEPTH_BIAS) then
        was.(biasEnable := true, biasConstant := 1, biasClamp := 0, biasSlope := 2, lineWidth := 1)
      else was;
    var moded := biased.(polygonMode := options.polygonMode);
    var culled :=
      if HasBeyond(options.flags, CULL) then moded.(cull := CullNone)
      else if Has(options.flags, CULL_FRONT) then moded.(cull := CullFront)
      else moded;
    if Has(options.flags, INVERT_FRONT_FACE) then culled.(clockwise := true) else culled
  }

  function SetDepth(was: Depth, options: Options, stencilFormat: nat): Depth {
    var written := if Has(options.flags, NO_DEPTH_WRITE) then was.(writeEnable := false) else was;
    if Has(options.flags, STENCIL_ENABLE) && stencilFormat != UNDEFINED_FORMAT then
      var front := written.front.(
        compare := match options.compare
          case WantEqual => CompareEqual
          case WantNotEqual => CompareNotEqual
          case AnyOrNone => CompareAlways,
        reference := options.reference, compareMask := options.compareMask, writeMask := options.writeMask);
      match options.logic
      case WantReplace =>
        var f := front.(failOp := Keep, passOp := Replace, depthFailOp := Keep);
        written.(stencilEnable := true, front := f, back := f)
      case CountDepthPass =>
        var f := front.(failOp := Keep, passOp := DecrementAndWrap, depthFailOp := Keep);
        written.(stencilEnable := true, front := f, back := f.(passOp := IncrementAndWrap))
      case CountDepthFail =>
        var f := front.(passOp := Keep, failOp := Keep, depthFailOp := IncrementAndWrap);
        written.(stencilEnable := true, front := f, back := f.(depthFailOp := DecrementAndWrap))
      case NoLogic =>
        var f := front.(passOp := Keep, failOp := Keep, depthFailOp := Keep);
        written.(stencilEnable := true, front := f, back := f)
    else written
  }

  function ColorCount(out: FragmentOut): nat {
    if |out.colorFormats| > 0 then |out.colorFormats| else 1
  }

  /** What a creation makes of the template it finds; base zero is the null handle. */
  function Written(was: CreateInfo, key: Key, base: nat): CreateInfo {
    was.(
      stageCount := if key.geometryModule == 0 then 2 else 3,
      modules := [key.vertexModule, key.fragmentModule, key.geometryModule],
      attributes := key.attributes, bindings := key.bindings, topology := key.topology,
      viewportCount := |key.viewports|, scissorCount := |key.scissors|,
      raster := SetRaster(was.raster, key.options),
      depth := SetDepth(was.depth, key.options, key.out.stencilFormat),
      blendStates := was.blendStates + ColorCount(key.out),
      blendCount := ColorCount(key.out),
      dynamicStates := if IsLine(key.topology) then DYNAMIC_STATES else DYNAMIC_STATES - 1,
      layout := key.layout,
      derivative := was.derivative || base != 0,
      base := if base != 0 then base else was.base,
      renderPass := key.renderPass, subpass := key.subpass)
  }

  /** The assignments of the reset. */
  datatype Field =
    | StageCount | Modules | Attributes | Bindings | Topology | ViewportCount | ScissorCount
    | FrontFace | PolygonMode | CullMode | BiasEnable | BiasConstant | BiasClamp | BiasSlope | LineWidth
    | StencilEnable | DepthWrite | FrontStencil | BackStencil
    | BlendStates | DynamicStates | DerivativeFlag | Layout | BasePipeline | RenderPass | Subpass

  /** A reset that leaves out the assignments to some fields. */
  function PartialReset(was: CreateInfo, keep: set<Field>): CreateInfo {
    was.(
      stageCount := if StageCount in keep then was.stageCount else 0,
      modules := if Modules in keep then was.modules else [0, 0, 0],
      attributes := if Attributes in keep then was.attributes else [],
      bindings := if Bindings in keep then was.bindings else [],
      topology := if Topology in keep then was.topology else 3,
      viewportCount := if ViewportCount in keep then was.viewportCount else 0,
      scissorCount := if ScissorCount in keep then was.scissorCount else 0,
      raster := was.raster.(
        clockwise := FrontFace in keep && was.raster.clockwise,
        polygonMode := if PolygonMode in keep then was.raster.polygonMode else 0,
        cull := if CullMode in keep then was.raster.cull else CullBack,
        biasEnable := BiasEnable in keep && was.raster.biasEnable,
        biasConstant := if BiasConstant in keep then was.raster.biasConstant else 1,
        biasClamp := if BiasClamp in keep then was.raster.biasClamp else 0,
        biasSlope := if BiasSlope in keep then was.raster.biasSlope else 1,
        lineWidth := if LineWidth in keep then was.raster.lineWidth else 1),
      depth := was.depth.(
        stencilEnable := StencilEnable in keep && was.depth.stencilEnable,
        writeEnable := DepthWrite !in keep || was.depth.writeEnable,
        front := if FrontStencil in keep then was.depth.front else NO_FACE,
        back := if BackStencil in keep then was.depth.back else NO_FACE),
      blendStates := if BlendStates in keep then was.blendStates else 0,
      dynamicStates := if DynamicStates in keep then was.dynamicStates else 0,
      derivative := DerivativeFlag in keep && was.derivative,
      layout := if Layout in keep then was.layout else 0,
      base := if BasePipeline in keep then was.base else 0,
      renderPass := if RenderPass in keep then was.renderPass else 0,
      subpass := if Subpass in keep then was.subpass else -1)
  }

  /** The reset, which leaves out none. */
  function Reset(was: CreateInfo): CreateInfo {
    PartialReset(was, {})
  }

  // ---------------------------------------------------------------- what a key asks for

  /** The create-info a key and a base ask for, said without a template. */
  function InfoFor(key: Key, base: nat): CreateInfo {
    CreateInfo(
      if key.geometryModule == 0 then 2 else 3,
      [key.vertexModule, key.fragmentModule, key.geometryModule],
      key.attributes, key.bindings, key.topology, |key.viewports|, |key.scissors|,
      RasterFor(key.options), DepthFor(key.options, key.out.stencilFormat),
      ColorCount(key.out), ColorCount(key.out),
      if IsLine(key.topology) then 3 else 2,
      key.layout, base != 0, base, key.renderPass, key.subpass)
  }

  function RasterFor(options: Options): Raster {
    var bias := Has(options.flags, DEPTH_BIAS);
    Raster(options.polygonMode, CullFor(options.flags), Has(options.flags, INVERT_FRONT_FACE),
           bias, 1, 0, if bias then 2 else 1, 1)
  }

  /** Only two combinations of flags cull at all. */
  function CullFor(flags: Flags): Cull {
    if flags == {} then CullBack else if flags == CULL then CullFront else CullNone
  }

  function DepthFor(options: Options, stencilFormat: nat): Depth {
    var stencil := Has(options.flags, STENCIL_ENABLE) && stencilFormat != UNDEFINED_FORMAT;
    Depth(!Has(options.flags, NO_DEPTH_WRITE), stencil,
          if stencil then FaceFor(options, true) else NO_FACE,
          if stencil then FaceFor(options, false) else NO_FACE)
  }

  function FaceFor(options: Options, front: bool): Face {
    Face(Keep,
         match options.logic
           case WantReplace => Replace
           case CountDepthPass => if front then DecrementAndWrap else IncrementAndWrap
           case _ => Keep,
         match options.logic
           case CountDepthFail => if front then IncrementAndWrap else DecrementAndWrap
           case _ => Keep,
         if options.compare.WantEqual? then CompareEqual
         else if options.compare.WantNotEqual? then CompareNotEqual else CompareAlways,
         options.compareMask, options.writeMask, options.reference)
  }

  /** What a creation relies on: the fields it may leave alone are as the constructor made them. */
  ghost predicate Clean(t: CreateInfo) {
    && t.raster.(polygonMode := 0) == PLAIN_RASTER && t.depth == PLAIN_DEPTH
    && t.blendStates == 0 && !t.derivative && t.base == 0
  }

  lemma TemplateClean()
    ensures Clean(TEMPLATE)
  {
  }

  lemma ResetCleans(t: CreateInfo)
    ensures Clean(Reset(t))
  {
  }

  /** The first cull test fails only for no flags and for the bare cull flag; the second tells these apart. */
  lemma CullMeans(flags: Flags)
    ensures !HasBeyond(flags, CULL) <==> flags == {} || flags == CULL
    ensures Has(CULL, CULL_FRONT) && !Has({}, CULL_FRONT)
  {
    assert 1 in CULL * CULL_FRONT;
    if !HasBeyond(flags, CULL) && flags != {} {
      var bit: nat :| bit in flags;
      assert bit !in flags - CULL;
      assert flags == CULL;
    }
  }

  lemma RasterWritten(was: Raster, options: Options)
    requires was.(polygonMode := 0) == PLAIN_RASTER
    ensures SetRaster(was, options) == RasterFor(options)
  {
    CullMeans(options.flags);
  }

  lemma DepthWritten(options: Options, stencilFormat: nat)
    ensures SetDepth(PLAIN_DEPTH, options, stencilFormat) == DepthFor(options, stencilFormat)
  {
  }

  /** Over a clean template a creation hands over exactly what its key and base ask for. */
  lemma WrittenIsAsked(t: CreateInfo, key: Key, base: nat)
    requires Clean(t)
    ensures Written(t, key, base) == InfoFor(key, base)
  {
    RasterWritten(t.raster, key.options);
    DepthWritten(key.options, key.out.stencilFormat);
  }

  /** The template after any number of creations, each with a reset that leaves out some fields. */
  function After(t: CreateInfo, keep: set<Field>, history: seq<(Key, nat)>): CreateInfo
    decreases |history|
  {
    if history == [] then t
    else After(PartialReset(Written(t, history[0].0, history[0].1), keep), keep, history[1..])
  }

  /** What a creation need not write and the next must not see. */
  const NEEDED: set<Field> := {
    FrontFace, CullMode, BiasEnable, BiasSlope, StencilEnable, DepthWrite, FrontStencil, BackStencil,
    BlendStates, DerivativeFlag, BasePipeline}

  lemma PartialCleans(t: CreateInfo, key: Key, base: nat, keep: set<Field>)
    requires Clean(t) && keep !! NEEDED
    ensures Clean(PartialReset(Written(t, key, base), keep))
  {
  }

  lemma {:induction false} AfterClean(t: CreateInfo, keep: set<Field>, history: seq<(Key, nat)>)
    requires Clean(t) && keep !! NEEDED
    ensures Clean(After(t, keep, history))
    decreases |history|
  {
    if history != [] {
      PartialCleans(t, history[0].0, history[0].1, keep);
      AfterClean(PartialReset(Written(t, history[0].0, history[0].1), keep), keep, history[1..]);
    }
  }

  /** History independence: whatever was created before, the create-info depends on the key and base alone. */
  lemma HistoryIndependent(history: seq<(Key, nat)>, key: Key, base: nat)
    ensures Written(After(TEMPLATE, {}, history), key, base) == InfoFor(key, base)
  {
    TemplateClean();
    AfterClean(TEMPLATE, {}, history);
    WrittenIsAsked(After(TEMPLATE, {}, history), key, base);
  }

  /** What the two stencil faces do, seen from the options: the front one counts down where the back one counts up. */
  ghost predicate FacesAsked(depth: Depth, options: Options) {
    && depth.front.compare == depth.back.compare
    && (depth.front.compare == CompareEqual <==> options.compare.WantEqual?)
    && (depth.front.compare == CompareNotEqual <==> options.compare.WantNotEqual?)
    && (depth.front.compare == CompareAlways <==> options.compare.AnyOrNone?)
    && depth.front.compareMask == depth.back.compareMask == options.compareMask
    && depth.front.writeMask == depth.back.writeMask == options.writeMask
    && depth.front.reference == depth.back.reference == options.reference
    && depth.front.failOp == depth.back.failOp == Keep
    && (depth.front.passOp, depth.back.passOp) ==
         (match options.logic
          case WantReplace => (Replace, Replace)
          case CountDepthPass => (DecrementAndWrap, IncrementAndWrap)
          case _ => (Keep, Keep))
    && (depth.front.depthFailOp, depth.back.depthFailOp) ==
         (if options.logic.CountDepthFail? then (IncrementAndWrap, DecrementAndWrap) else (Keep, Keep))
  }

  ghost predicate RasterAsked(raster: Raster, options: Options) {
    && raster.polygonMode == options.polygonMode && raster.lineWidth == 1
    && (raster.cull == CullBack <==> forall bit: nat :: bit !in options.flags)
    && (raster.cull == CullFront <==> forall bit: nat :: bit in options.flags <==> bit == 1)
    && (raster.clockwise <==> 3 in options.flags)
    && raster.biasEnable == (0 in options.flags)
    && raster.biasConstant == 1 && raster.biasClamp == 0 && raster.biasSlope == (if 0 in options.flags then 2 else 1)
  }

  lemma HasOne(flags: Flags, bit: nat)
    ensures Has(flags, {bit}) <==> bit in flags
  {
    if Has(flags, {bit}) {
      var x: nat :| x in flags * {bit};
    } else {
      assert bit !in flags * {bit};
    }
  }

  lemma RasterForAsked(options: Options)
    ensures RasterAsked(RasterFor(options), options)
  {
    HasOne(options.flags, 0);
    HasOne(options.flags, 3);
    assert options.flags == {} <==> forall bit: nat :: bit !in options.flags;
    assert options.flags == {1} <==> forall bit: nat :: bit in options.flags <==> bit == 1;
  }

  /**
   After any history of creations, what is handed to the device for a key and a base, option by option: the stages,
   the number of blend states, the rasterization and the stencil faces, and that the line width is announced as
   dynamic for the four line topologies and no others.
   */
  lemma CreationMeans(history: seq<(Key, nat)>, key: Key, base: nat)
    ensures var info := Written(After(TEMPLATE, {}, history), key, base);
      && info.stageCount == (if key.geometryModule != 0 then 3 else 2)
      && info.modules == [key.vertexModule, key.fragmentModule, key.geometryModule]
      && info.attributes == key.attributes && info.bindings == key.bindings && info.topology == key.topology
      && info.viewportCount == |key.viewports| && info.scissorCount == |key.scissors|
      && (info.dynamicStates == 3 <==> key.topology in [1, 2, 6, 7])
      && (info.dynamicStates == 2 <==> key.topology !in [1, 2, 6, 7])
      && info.blendStates == info.blendCount == (if key.out.colorFormats == [] then 1 else |key.out.colorFormats|)
      && RasterAsked(info.raster, key.options)
      && info.depth.writeEnable == (4 !in key.options.flags)
      && info.depth.stencilEnable == (5 in key.options.flags && key.out.stencilFormat != 0)
      && (info.depth.stencilEnable ==> FacesAsked(info.depth, key.options))
      && info.layout == key.layout && info.renderPass == key.renderPass && info.subpass == key.subpass
      && info.base == base && (info.derivative <==> base != 0)
  {
    HistoryIndependent(history, key, base);
    RasterForAsked(key.options);
    HasOne(key.options.flags, 4);
    HasOne(key.options.flags, 5);
  }

  /** A key that asks for nothing special, and one that asks for everything a plain key does not overwrite. */
  const PLAIN_OPTIONS := Options({}, 0, AnyOrNone, NoLogic, 0, 0, 0)
  const PLAIN := Key(3, [], [], 1, 0, 1, [], [], FragmentOut(0, []), 0, 0, PLAIN_OPTIONS, 1)
  const LOUD_FLAGS: Flags := {0, 3, 4, 5}
  const LOUD := PLAIN.(out := FragmentOut(1, []), options := PLAIN.options.(flags := LOUD_FLAGS))

  /** A template serves every key and base if and only if it is clean. */
  lemma CleanExactly(t: CreateInfo)
    ensures (forall key: Key, base: nat :: Written(t, key, base) == InfoFor(key, base)) <==> Clean(t)
  {
    if Clean(t) {
      forall key: Key, base: nat ensures Written(t, key, base) == InfoFor(key, base) {
        WrittenIsAsked(t, key, base);
      }
    }
    if forall key: Key, base: nat :: Written(t, key, base) == InfoFor(key, base) {
      assert Written(t, PLAIN, 0) == InfoFor(PLAIN, 0);
      assert SetRaster(t.raster, PLAIN.options) == RasterFor(PLAIN.options);
      CullMeans({});
    }
  }

  lemma LoudFlags()
    ensures Has(LOUD_FLAGS, DEPTH_BIAS) && Has(LOUD_FLAGS, INVERT_FRONT_FACE) && Has(LOUD_FLAGS, NO_DEPTH_WRITE)
    ensures Has(LOUD_FLAGS, STENCIL_ENABLE) && HasBeyond(LOUD_FLAGS, CULL)
  {
    assert 0 in LOUD_FLAGS * DEPTH_BIAS && 3 in LOUD_FLAGS * INVERT_FRONT_FACE && 4 in LOUD_FLAGS * NO_DEPTH_WRITE;
    assert 5 in LOUD_FLAGS * STENCIL_ENABLE && 0 in LOUD_FLAGS - CULL;
  }

  /** After this history the create-info is what the key and the base ask for. */
  ghost predicate Forgets(keep: set<Field>, history: seq<(Key, nat)>, key: Key, base: nat) {
    Written(After(TEMPLATE, keep, history), key, base) == InfoFor(key, base)
  }

  /** What a plain creation after a loud one shows of a reset that left fields out. */
  lemma PlainAfterLoud(keep: set<Field>)
    ensures Forgets(keep, [(LOUD, 1)], PLAIN, 0) ==> keep !! NEEDED
  {
    var loud := Written(TEMPLATE, LOUD, 1);
    LoudFlags();
    assert loud.raster == Raster(0, CullNone, true, true, 1, 0, 2, 1);
    assert loud.depth.front == Face(Keep, Keep, Keep, CompareAlways, 0, 0, 0) == loud.depth.back;
    var kept := PartialReset(loud, keep);
    assert [(LOUD, 1)][1..] == [];
    assert After(TEMPLATE, keep, [(LOUD, 1)]) == kept;
    assert Written(kept, PLAIN, 0).raster == kept.raster.(polygonMode := 0);
  }

  /**
   Which assignments the reset needs: the create-info of a creation depends on its key and base alone, after
   any history, if and only if none of those in NEEDED is left out. All the others are redundant.
   */
  lemma ResetNeededExactly(keep: set<Field>)
    ensures (forall history: seq<(Key, nat)>, key: Key, base: nat :: Forgets(keep, history, key, base))
            <==> keep !! NEEDED
  {
    if keep !! NEEDED {
      forall history: seq<(Key, nat)>, key: Key, base: nat
        ensures Forgets(keep, history, key, base)
      {
        AfterClean(TEMPLATE, keep, history);
        WrittenIsAsked(After(TEMPLATE, keep, history), key, base);
      }
    } else {
      PlainAfterLoud(keep);
      assert !Forgets(keep, [(LOUD, 1)], PLAIN, 0);
    }
  }

  // ---------------------------------------------------------------- as the device reads it

  /**
   The part of a create-info the device reads: the announced blend states only, and bias factors, stencil
   faces and base pipeline only where their switch is on.
   */
  function Read(info: CreateInfo): CreateInfo {
    info.(
      blendStates := if info.blendStates < info.blendCount then info.blendStates else info.blendCount,
      raster := if info.raster.biasEnable then info.raster
                else info.raster.(biasConstant := 1, biasClamp := 0, biasSlope := 1),
      depth := if info.depth.stencilEnable then info.depth else info.depth.(front := NO_FACE, back := NO_FACE),
      base := if info.derivative then info.base else 0)
  }

  const NEEDED_AS_READ: set<Field> := {FrontFace, CullMode, BiasEnable, StencilEnable, DepthWrite, DerivativeFlag}

  /** All switches are off. */
  ghost predicate Quiet(t: CreateInfo) {
    && !t.raster.clockwise && t.raster.cull == CullBack && !t.raster.biasEnable && t.raster.lineWidth == 1
    && t.depth.writeEnable && !t.depth.stencilEnable && !t.derivative
  }

  lemma ReadIsAsked(t: CreateInfo, key: Key, base: nat)
    requires Quiet(t)
    ensures Read(Written(t, key, base)) == InfoFor(key, base)
  {
    CullMeans(key.options.flags);
    var info := Written(t, key, base);
    assert Read(info).raster == RasterFor(key.options);
    assert Read(info).depth == DepthFor(key.options, key.out.stencilFormat);
  }

  lemma {:induction false} AfterQuiet(t: CreateInfo, keep: set<Field>, history: seq<(Key, nat)>)
    requires Quiet(t) && keep !! NEEDED_AS_READ
    ensures Quiet(After(t, keep, history))
    decreases |history|
  {
    if history != [] {
      AfterQuiet(PartialReset(Written(t, history[0].0, history[0].1), keep), keep, history[1..]);
    }
  }

  ghost predicate ForgetsAsRead(keep: set<Field>, history: seq<(Key, nat)>, key: Key, base: nat) {
    Read(Written(After(TEMPLATE, keep, history), key, base)) == InfoFor(key, base)
  }

  lemma PlainAfterLoudRead(keep: set<Field>)
    ensures ForgetsAsRead(keep, [(LOUD, 1)], PLAIN, 0) ==> keep !! NEEDED_AS_READ
  {
    var loud := Written(TEMPLATE, LOUD, 1);
    LoudFlags();
    assert loud.raster == Raster(0, CullNone, true, true, 1, 0, 2, 1);
    var kept := PartialReset(loud, keep);
    assert [(LOUD, 1)][1..] == [];
    assert After(TEMPLATE, keep, [(LOUD, 1)]) == kept;
    var info := Written(kept, PLAIN, 0);
    assert info.raster == kept.raster.(polygonMode := 0);
    assert Read(info).raster.cull == kept.raster.cull && Read(info).raster.clockwise == kept.raster.clockwise;
    assert Read(info).raster.biasEnable == kept.raster.biasEnable;
  }

  /** And of what the device reads, only six assignments are needed. */
  lemma ReadNeededExactly(keep: set<Field>)
    ensures (forall history: seq<(Key, nat)>, key: Key, base: nat :: ForgetsAsRead(keep, history, key, base))
            <==> keep !! NEEDED_AS_READ
  {
    if keep !! NEEDED_AS_READ {
      forall history: seq<(Key, nat)>, key: Key, base: nat
        ensures ForgetsAsRead(keep, history, key, base)
      {
        AfterQuiet(TEMPLATE, keep, history);
        ReadIsAsked(After(TEMPLATE, keep, history), key, base);
      }
    } else {
      PlainAfterLoudRead(keep);
      assert !ForgetsAsRead(keep, [(LOUD, 1)], PLAIN, 0);
    }
  }

  /**
   Two keys the cache takes for equal ask for the same create-info exactly when they also agree on the
   number of color attachments and, if the stencil test is on, on whether there is a stencil format.
   */
  lemma SameKeySameInfoExactly(a: Key, b: Key, base: nat)
    requires SameKey(a, b)
    ensures InfoFor(a, base) == InfoFor(b, base) <==>
      ColorCount(a.out) == ColorCount(b.out) &&
      (Has(a.options.flags, STENCIL_ENABLE) ==>
         (a.out.stencilFormat == UNDEFINED_FORMAT <==> b.out.stencilFormat == UNDEFINED_FORMAT))
  {
  }

  // ---------------------------------------------------------------- compute pipelines

  datatype ComputeKey = ComputeKey(module_: nat, layout: nat)

  /** The fields of the compute create-info that change. */
  datatype ComputeInfo = ComputeInfo(module_: nat, layout: nat, derivative: bool, base: nat)

  const COMPUTE_TEMPLATE := ComputeInfo(0, 0, false, 0)

  // ---------------------------------------------------------------- discarding by layout

  /** A cached pipeline, with the layout of its key. */
  datatype Entry<K> = Entry(key: K, layout: nat, pipeline: nat)

  /** The pipelines of the entries with a layout, and the entries without it, both in order. */
  function With<K>(entries: seq<Entry<K>>, layout: nat): seq<nat> {
    if entries == [] then []
    else (if entries[0].layout == layout then [entries[0].pipeline] else []) + With(entries[1..], layout)
  }

  function Without<K>(entries: seq<Entry<K>>, layout: nat): seq<Entry<K>> {
    if entries == [] then []
    else (if entries[0].layout == layout then [] else [entries[0]]) + Without(entries[1..], layout)
  }

  ghost function Cached<K>(entries: seq<Entry<K>>, p: nat): nat {
    if entries == [] then 0 else (if entries[0].pipeline == p then 1 else 0) + Cached(entries[1..], p)
  }

  ghost function Listed(pipelines: seq<nat>, p: nat): nat {
    if pipelines == [] then 0 else (if pipelines[0] == p then 1 else 0) + Listed(pipelines[1..], p)
  }

  /** Every pipeline of the cache ends up on exactly one side, as often as it was there. */
  lemma {:induction false} DiscardSplits<K>(entries: seq<Entry<K>>, layout: nat, p: nat)
    ensures Listed(With(entries, layout), p) + Cached(Without(entries, layout), p) == Cached(entries, p)
  {
    if entries != [] {
      DiscardSplits(entries[1..], layout, p);
      if entries[0].layout == layout {
        assert With(entries, layout)[1..] == With(entries[1..], layout);
        assert Without(entries, layout) == Without(entries[1..], layout);
      } else {
        assert Without(entries, layout)[1..] == Without(entries[1..], layout);
        assert With(entries, layout) == With(entries[1..], layout);
      }
    }
  }

  /** The entries that stay are exactly those of other layouts. */
  lemma {:induction false} WithoutKeeps<K>(entries: seq<Entry<K>>, layout: nat, e: Entry<K>)
    ensures e in Without(entries, layout) <==> e in entries && e.layout != layout
  {
    if entries != [] {
      WithoutKeeps(entries[1..], layout, e);
      assert e in entries <==> e == entries[0] || e in entries[1..];
    }
  }

  // ---------------------------------------------------------------- the pool as the program keeps it

  class Pool {
    var info: CreateInfo
    var computeInfo: ComputeInfo
    var graphics: seq<Entry<Key>>
    var compute: seq<Entry<ComputeKey>>
    var pipelines: nat                                    // how many the device has made
    ghost var built: map<nat, (CreateInfo, nat)>          // what each graphics pipeline was made from, and its base
    ghost var builtCompute: map<nat, ComputeInfo>

    /** Every cached pipeline was made from what its key and base ask for. */
    ghost predicate Valid() reads this {
      && Clean(info) && computeInfo == COMPUTE_TEMPLATE
      && (forall e | e in graphics :: e.layout == e.key.layout && e.pipeline < pipelines && e.pipeline in built
            && built[e.pipeline].0 == InfoFor(e.key, built[e.pipeline].1))
      && (forall e | e in compute :: e.layout == e.key.layout && e.pipeline < pipelines && e.pipeline in builtCompute
            && builtCompute[e.pipeline].module_ == e.key.module_ && builtCompute[e.pipeline].layout == e.key.layout
            && builtCompute[e.pipeline].derivative == (builtCompute[e.pipeline].base != 0))
      && (forall p | p in built :: p < pipelines) && (forall p | p in builtCompute :: p < pipelines)
    }

    constructor ()
      ensures Valid() && graphics == [] && compute == []
    {
      info, computeInfo, graphics, compute, pipelines := TEMPLATE, COMPUTE_TEMPLATE, [], [], 0;
      built, builtCompute := map[], map[];
    }

    /**
     What the hash table answers: an entry whose key it takes for equal, and if none, then at least none with
     this very key. (The hash looks at the fragment output, the equality does not.)
     */
    ghost predicate Answers(key: Key, found: Option<nat>) reads this {
      match found
      case Some(i) => i < |graphics| && SameKey(graphics[i].key, key)
      case None => forall i: nat | i < |graphics| :: graphics[i].key != key
    }

    /**
     On a hit the cached pipeline, which was made from what this key asks for if the two fragment outputs
     agree; on a miss a new pipeline made from what the key and the base ask for.
     */
    method GetOrCreateGraphicsPipeline(key: Key, base: nat, found: Option<nat>) returns (pipeline: nat)
      requires Valid() && Answers(key, found)
      modifies this`info, this`graphics, this`pipelines, this`built
      ensures Valid()
      ensures found.Some? ==>
        && graphics == old(graphics) && pipeline == graphics[found.value].pipeline
        && built == old(built) && pipelines == old(pipelines)
      ensures found.None? ==>
        pipeline == old(pipelines) && graphics == old(graphics) + [Entry(key, key.layout, pipeline)]
        && built == old(built)[pipeline := (InfoFor(key, base), base)]
      ensures pipeline in built
      ensures found.None? || graphics[found.value].key == key ==> built[pipeline].0 == InfoFor(key, built[pipeline].1)
    {
      if found.Some? {
        assert graphics[found.value] in graphics;
        return graphics[found.value].pipeline;
      }
      WrittenIsAsked(info, key, base);
      Parametrize(key, base);
      pipeline := pipelines;
      pipelines := pipelines + 1;
      built := built[pipeline := (info, base)];
      ResetCleans(info);
      info := Reset(info);
      graphics := graphics + [Entry(key, key.layout, pipeline)];
    }

    /** Writes a key over the create-info, field by field. */
    method Parametrize(key: Key, base: nat)
      modifies this`info
      ensures info == Written(old(info), key, base)
    {
      info := info.(
        stageCount := if key.geometryModule == 0 then 2 else 3,
        modules := [key.vertexModule, key.fragmentModule, key.geometryModule],
        attributes := key.attributes, bindings := key.bindings, topology := key.topology,
        viewportCount := |key.viewports|, scissorCount := |key.scissors|);
      SetRasterState(key.options);
      info := info.(depth := SetDepth(info.depth, key.options, key.out.stencilFormat));
      AddBlendStates(ColorCount(key.out));
      info := info.(blendCount := ColorCount(key.out));
      info := info.(dynamicStates := if IsLine(key.topology) then DYNAMIC_STATES else DYNAMIC_STATES - 1);
      info := info.(layout := key.layout);
      if base != 0 {
        info := info.(derivative := true, base := base);
      }
      info := info.(renderPass := key.renderPass, subpass := key.subpass);
    }

    method SetRasterState(options: Options)
      modifies this`info
      ensures info == old(info).(raster := SetRaster(old(info).raster, options))
    {
      var raster := info.raster;
      if Has(options.flags, DEPTH_BIAS) {
        raster := raster.(biasEnable := true, biasConstant := 1, biasClamp := 0, biasSlope := 2, lineWidth := 1);
      }
      raster := raster.(polygonMode := options.polygonMode);
      if HasBeyond(options.flags, CULL) {
        raster := raster.(cull := CullNone);
      } else if Has(options.flags, CULL_FRONT) {
        raster := raster.(cull := CullFront);
      }
      if Has(options.flags, INVERT_FRONT_FACE) {
        raster := raster.(clockwise := true);
      }
      info := info.(raster := raster);
    }

    method AddBlendStates(n: nat)
      modifies this`info
      ensures info == old(info).(blendStates := old(info).blendStates + n)
    {
      var i := 0;
      while i < n
        invariant i <= n && info == old(info).(blendStates := old(info).blendStates + i)
      {
        info := info.(blendStates := info.blendStates + 1);
        i := i + 1;
      }
    }

    /** The compute table's hash agrees with its equality, so a lookup finds the key if it is there. */
    ghost predicate AnswersCompute(key: ComputeKey, found: Option<nat>) reads this {
      match found
      case Some(i) => i < |compute| && compute[i].key == key
      case None => forall i: nat | i < |compute| :: compute[i].key != key
    }

    method GetOrCreateComputePipeline(key: ComputeKey, base: nat, found: Option<nat>) returns (pipeline: nat)
      requires Valid() && AnswersCompute(key, found)
      modifies this`computeInfo, this`compute, this`pipelines, this`builtCompute
      ensures Valid()
      ensures pipeline in builtCompute
      ensures var b := builtCompute[pipeline].base;
        builtCompute[pipeline] == ComputeInfo(key.module_, key.layout, b != 0, b) && (found.None? ==> b == base)
      ensures found.Some? ==>
        && compute == old(compute) && pipeline == compute[found.value].pipeline
        && builtCompute == old(builtCompute) && pipelines == old(pipelines)
      ensures found.None? ==> pipeline == old(pipelines) && compute == old(compute) + [Entry(key, key.layout, pipeline)]
    {
      if found.Some? {
        assert compute[found.value] in compute;
        return compute[found.value].pipeline;
      }
      computeInfo := computeInfo.(layout := key.layout, module_ := key.module_);
      if base != 0 {
        computeInfo := computeInfo.(derivative := true, base := base);
      }
      pipeline := pipelines;
      pipelines := pipelines + 1;
      builtCompute := builtCompute[pipeline := computeInfo];
      compute := compute + [Entry(key, key.layout, pipeline)];
      computeInfo := computeInfo.(layout := 0, derivative := false, base := 0, module_ := 0);
    }

    /** Moves the pipelines of one layout out of both caches, each once, and keeps all others. */
    method DiscardAllPipelines(layout: nat) returns (discarded: seq<nat>)
      requires Valid()
      modifies this`graphics, this`compute
      ensures Valid()
      ensures discarded == With(old(compute), layout) + With(old(graphics), layout)
      ensures compute == Without(old(compute), layout) && graphics == Without(old(graphics), layout)
    {
      forall e ensures e in Without(compute, layout) ==> e in compute { WithoutKeeps(compute, layout, e); }
      forall e ensures e in Without(graphics, layout) ==> e in graphics { WithoutKeeps(graphics, layout, e); }
      var c, g;
      compute, c := SplitOff(compute, layout);
      graphics, g := SplitOff(graphics, layout);
      discarded := c + g;
    }

    /** The loop over one cache: an entry with the layout is discarded and erased, any other is stepped over. */
    static method SplitOff<K>(entries: seq<Entry<K>>, layout: nat) returns (kept: seq<Entry<K>>, discarded: seq<nat>)
      ensures kept == Without(entries, layout) && discarded == With(entries, layout)
    {
      kept, discarded := entries, [];
      var it := 0;
      while it < |kept|
        invariant it <= |kept|
        invariant discarded + With(kept[it..], layout) == With(entries, layout)
        invariant kept[..it] + Without(kept[it..], layout) == Without(entries, layout)
        decreases |kept| - it
      {
        SplitNext(kept, it, layout);
        if kept[it].layout == layout {
          discarded := discarded + [kept[it].pipeline];
          ErasedAt(kept, it);
          kept := kept[..it] + kept[it + 1..];
        } else {
          it := it + 1;
        }
      }
      assert kept[it..] == [] && kept[..it] == kept;
    }
  }

  lemma ErasedAt<T>(entries: seq<T>, it: nat)
    requires it < |entries|
    ensures var rest := entries[..it] + entries[it + 1..];
      rest[..it] == entries[..it] && rest[it..] == entries[it + 1..]
  {
  }

  lemma SplitNext<K>(entries: seq<Entry<K>>, it: nat, layout: nat)
    requires it < |entries|
    ensures With(entries[it..], layout)
            == (if entries[it].layout == layout then [entries[it].pipeline] else []) + With(entries[it + 1..], layout)
    ensures entries[..it] + Without(entries[it..], layout)
            == if entries[it].layout == layout then entries[..it] + Without(entries[it + 1..], layout)
               else entries[..it + 1] + Without(entries[it + 1..], layout)
  {
    assert entries[it..][1..] == entries[it + 1..];
    assert entries[..it + 1] == entries[..it] + [entries[it]];
  }
}
