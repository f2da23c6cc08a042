/**
 * The class transformer: it substitutes the base class of player model
 * classes that extend `ModelBiped`, renames their overrides of the hook
 * methods and hands every method on to the visitor that fits it.
 */
module EnhancerClassVisitor {
  import opened Wrappers
  import opened Bytecode
  import opened Hooks
  import opened EnhancerMethodVisitor

  /** The base class whose subclasses are enhanced, readable and obfuscated. */
  const ModelBipedName: string := "net/minecraft/client/model/ModelBiped"
  const ObfuscatedModelBipedName: string := "bpx"
  /** The base class an enhanced class extends instead. */
  const ModelPlayerArmorName: string := "api/player/model/ModelPlayerArmor"

  const InitName: string := "<init>"
  const ClinitName: string := "<clinit>"
  const CinitName: string := "<cinit>"

  /** The condition `visit` tests: the obfuscated name counts only in an obfuscated environment. */
  predicate IsEnhancable(isObfuscated: bool, superName: string)
  {
    (isObfuscated && superName == ObfuscatedModelBipedName) || superName == ModelBipedName
  }

  // The definition renaming chain, transcribed on its own from the class
  // transformer; it has the same eleven groups as the call-site chain.

  /** The `getArmForSide` group: it recognises exactly the fingerprints of its row of the table. */
  function GetArmForSideGroup(isObfuscated: bool, superCallingMethods: set<string>, name: string, desc: string): (r: Option<string>)
    ensures r == Rename(isObfuscated, superCallingMethods, GetArmForSideSpelling, name, desc)
  {
    if isObfuscated then
      if name == "a" && desc == "(Lvo;)Lbrs;" then
        Some(if name + "___" + desc in superCallingMethods then name else "localGetArmForSide")
      else if name == "func_187074_a" && desc == "(Lnet/minecraft/util/EnumHandSide;)Lnet/minecraft/client/model/ModelRenderer;" then
        Some(if name + "___" + desc in superCallingMethods then name else "localGetArmForSide")
      else None
    else if name == "getArmForSide" && desc == "(Lnet/minecraft/util/EnumHandSide;)Lnet/minecraft/client/model/ModelRenderer;" then
      Some(if name + "___" + desc in superCallingMethods then name else "localGetArmForSide")
    else None
  }

  /** The `getMainHand` group: it recognises exactly the fingerprints of its row of the table. */
  function GetMainHandGroup(isObfuscated: bool, superCallingMethods: set<string>, name: string, desc: string): (r: Option<string>)
    ensures r == Rename(isObfuscated, superCallingMethods, GetMainHandSpelling, name, desc)
  {
    if isObfuscated then
      if name == "a" && desc == "(Lvg;)Lvo;" then
        Some(if name + "___" + desc in superCallingMethods then name else "localGetMainHand")
      else if name == "func_187072_a" && desc == "(Lnet/minecraft/entity/Entity;)Lnet/minecraft/util/EnumHandSide;" then
        Some(if name + "___" + desc in superCallingMethods then name else "localGetMainHand")
      else None
    else if name == "getMainHand" && desc == "(Lnet/minecraft/entity/Entity;)Lnet/minecraft/util/EnumHandSide;" then
      Some(if name + "___" + desc in superCallingMethods then name else "localGetMainHand")
    else None
  }

  /** The `getRandomModelBox` group: it recognises exactly the fingerprints of its row of the table. */
  function GetRandomModelBoxGroup(isObfuscated: bool, superCallingMethods: set<string>, name: string, desc: string): (r: Option<string>)
    ensures r == Rename(isObfuscated, superCallingMethods, GetRandomModelBoxSpelling, name, desc)
  {
    if isObfuscated then
      if name == "a" && desc == "(Ljava/util/Random;)Lbrs;" then
        Some(if name + "___" + desc in superCallingMethods then name else "localGetRandomModelBox")
      else if name == "func_85181_a" && desc == "(Ljava/util/Random;)Lnet/minecraft/client/model/ModelRenderer;" then
        Some(if name + "___" + desc in superCallingMethods then name else "localGetRandomModelBox")
      else None
    else if name == "getRandomModelBox" && desc == "(Ljava/util/Random;)Lnet/minecraft/client/model/ModelRenderer;" then
      Some(if name + "___" + desc in superCallingMethods then name else "localGetRandomModelBox")
    else None
  }

  /** The `getTextureOffset` group: it recognises exactly the fingerprints of its row of the table. */
  function GetTextureOffsetGroup(isObfuscated: bool, superCallingMethods: set<string>, name: string, desc: string): (r: Option<string>)
    ensures r == Rename(isObfuscated, superCallingMethods, GetTextureOffsetSpelling, name, desc)
  {
    if isObfuscated then
      if name == "a" && desc == "(Ljava/lang/String;)Lbrt;" then
        Some(if name + "___" + desc in superCallingMethods then name else "localGetTextureOffset")
      else if name == "func_78084_a" && desc == "(Ljava/lang/String;)Lnet/minecraft/client/model/TextureOffset;" then
        Some(if name + "___" + desc in superCallingMethods then name else "localGetTextureOffset")
      else None
    else if name == "getTextureOffset" && desc == "(Ljava/lang/String;)Lnet/minecraft/client/model/TextureOffset;" then
      Some(if name + "___" + desc in superCallingMethods then name else "localGetTextureOffset")
    else None
  }

  /** The `postRenderArm` group: it recognises exactly the fingerprints of its row of the table. */
  function PostRenderArmGroup(isObfuscated: bool, superCallingMethods: set<string>, name: string, desc: string): (r: Option<string>)
    ensures r == Rename(isObfuscated, superCallingMethods, PostRenderArmSpelling, name, desc)
  {
    if isObfuscated then
      if name == "a" && desc == "(FLvo;)V" then
        Some(if name + "___" + desc in superCallingMethods then name else "localPostRenderArm")
      else if name == "func_187073_a" && desc == "(FLnet/minecraft/util/EnumHandSide;)V" then
        Some(if name + "___" + desc in superCallingMethods then name else "localPostRenderArm")
      else None
    else if name == "postRenderArm" && desc == "(FLnet/minecraft/util/EnumHandSide;)V" then
      Some(if name + "___" + desc in superCallingMethods then name else "localPostRenderArm")
    else None
  }

  /** The `render` group: it recognises exactly the fingerprints of its row of the table. */
  function RenderGroup(isObfuscated: bool, superCallingMethods: set<string>, name: string, desc: string): (r: Option<string>)
    ensures r == Rename(isObfuscated, superCallingMethods, RenderSpelling, name, desc)
  {
    if isObfuscated then
      if name == "a" && desc == "(Lvg;FFFFFF)V" then
        Some(if name + "___" + desc in superCallingMethods then name else "localRender")
      else if name == "func_78088_a" && desc == "(Lnet/minecraft/entity/Entity;FFFFFF)V" then
        Some(if name + "___" + desc in superCallingMethods then name else "localRender")
      else None
    else if name == "render" && desc == "(Lnet/minecraft/entity/Entity;FFFFFF)V" then
      Some(if name + "___" + desc in superCallingMethods then name else "localRender")
    else None
  }

  /** The `setLivingAnimations` group: it recognises exactly the fingerprints of its row of the table. */
  function SetLivingAnimationsGroup(isObfuscated: bool, superCallingMethods: set<string>, name: string, desc: string): (r: Option<string>)
    ensures r == Rename(isObfuscated, superCallingMethods, SetLivingAnimationsSpelling, name, desc)
  {
    if isObfuscated then
      if name == "a" && desc == "(Lvp;FFF)V" then
        Some(if name + "___" + desc in superCallingMethods then name else "localSetLivingAnimations")
      else if name == "func_78086_a" && desc == "(Lnet/minecraft/entity/EntityLivingBase;FFF)V" then
        Some(if name + "___" + desc in superCallingMethods then name else "localSetLivingAnimations")
      else None
    else if name == "setLivingAnimations" && desc == "(Lnet/minecraft/entity/EntityLivingBase;FFF)V" then
      Some(if name + "___" + desc in superCallingMethods then name else "localSetLivingAnimations")
    else None
  }

  /** The `setModelAttributes` group: it recognises exactly the fingerprints of its row of the table. */
  function SetModelAttributesGroup(isObfuscated: bool, superCallingMethods: set<string>, name: string, desc: string): (r: Option<string>)
    ensures r == Rename(isObfuscated, superCallingMethods, SetModelAttributesSpelling, name, desc)
  {
    if isObfuscated then
      if name == "a" && desc == "(Lbqf;)V" then
        Some(if name + "___" + desc in superCallingMethods then name else "localSetModelAttributes")
      else if name == "func_178686_a" && desc == "(Lnet/minecraft/client/model/ModelBase;)V" then
        Some(if name + "___" + desc in superCallingMethods then name else "localSetModelAttributes")
      else None
    else if name == "setModelAttributes" && desc == "(Lnet/minecraft/client/model/ModelBase;)V" then
      Some(if name + "___" + desc in superCallingMethods then name else "localSetModelAttributes")
    else None
  }

  /** The `setRotationAngles` group: it recognises exactly the fingerprints of its row of the table. */
  function SetRotationAnglesGroup(isObfuscated: bool, superCallingMethods: set<string>, name: string, desc: string): (r: Option<string>)
    ensures r == Rename(isObfuscated, superCallingMethods, SetRotationAnglesSpelling, name, desc)
  {
    if isObfuscated then
      if name == "a" && desc == "(FFFFFFLvg;)V" then
        Some(if name + "___" + desc in superCallingMethods then name else "localSetRotationAngles")
      else if name == "func_78087_a" && desc == "(FFFFFFLnet/minecraft/entity/Entity;)V" then
        Some(if name + "___" + desc in superCallingMethods then name else "localSetRotationAngles")
      else None
    else if name == "setRotationAngles" && desc == "(FFFFFFLnet/minecraft/entity/Entity;)V" then
      Some(if name + "___" + desc in superCallingMethods then name else "localSetRotationAngles")
    else None
  }

  /** The `setTextureOffset` group: it recognises exactly the fingerprints of its row of the table. */
  function SetTextureOffsetGroup(isObfuscated: bool, superCallingMethods: set<string>, name: string, desc: string): (r: Option<string>)
    ensures r == Rename(isObfuscated, superCallingMethods, SetTextureOffsetSpelling, name, desc)
  {
    if isObfuscated then
      if name == "a" && desc == "(Ljava/lang/String;II)V" then
        Some(if name + "___" + desc in superCallingMethods then name else "localSetTextureOffset")
      else if name == "func_78085_a" && desc == "(Ljava/lang/String;II)V" then
        Some(if name + "___" + desc in superCallingMethods then name else "localSetTextureOffset")
      else None
    else if name == "setTextureOffset" && desc == "(Ljava/lang/String;II)V" then
      Some(if name + "___" + desc in superCallingMethods then name else "localSetTextureOffset")
    else None
  }

  /** The `setVisible` group: it recognises exactly the fingerprints of its row of the table. */
  function SetVisibleGroup(isObfuscated: bool, superCallingMethods: set<string>, name: string, desc: string): (r: Option<string>)
    ensures r == Rename(isObfuscated, superCallingMethods, SetVisibleSpelling, name, desc)
  {
    if isObfuscated then
      if name == "a" && desc == "(Z)V" then
        Some(if name + "___" + desc in superCallingMethods then name else "localSetVisible")
      else if name == "func_178719_a" && desc == "(Z)V" then
        Some(if name + "___" + desc in superCallingMethods then name else "localSetVisible")
      else None
    else if name == "setVisible" && desc == "(Z)V" then
      Some(if name + "___" + desc in superCallingMethods then name else "localSetVisible")
    else None
  }

  /**
   * The definition renaming: the first group that recognises `(name, desc)`
   * decides the name; a name no group recognises is returned as it is.
   */
  function GetMethodName(isObfuscated: bool, superCallingMethods: set<string>, name: string, desc: string): string
  {
    var getArmForSide := GetArmForSideGroup(isObfuscated, superCallingMethods, name, desc);
    if getArmForSide.Some? then getArmForSide.value else
    var getMainHand := GetMainHandGroup(isObfuscated, superCallingMethods, name, desc);
    if getMainHand.Some? then getMainHand.value else
    var getRandomModelBox := GetRandomModelBoxGroup(isObfuscated, superCallingMethods, name, desc);
    if getRandomModelBox.Some? then getRandomModelBox.value else
    var getTextureOffset := GetTextureOffsetGroup(isObfuscated, superCallingMethods, name, desc);
    if getTextureOffset.Some? then getTextureOffset.value else
    var postRenderArm := PostRenderArmGroup(isObfuscated, superCallingMethods, name, desc);
    if postRenderArm.Some? then postRenderArm.value else
    var render := RenderGroup(isObfuscated, superCallingMethods, name, desc);
    if render.Some? then render.value else
    var setLivingAnimations := SetLivingAnimationsGroup(isObfuscated, superCallingMethods, name, desc);
    if setLivingAnimations.Some? then setLivingAnimations.value else
    var setModelAttributes := SetModelAttributesGroup(isObfuscated, superCallingMethods, name, desc);
    if setModelAttributes.Some? then setModelAttributes.value else
    var setRotationAngles := SetRotationAnglesGroup(isObfuscated, superCallingMethods, name, desc);
    if setRotationAngles.Some? then setRotationAngles.value else
    var setTextureOffset := SetTextureOffsetGroup(isObfuscated, superCallingMethods, name, desc);
    if setTextureOffset.Some? then setTextureOffset.value else
    var setVisible := SetVisibleGroup(isObfuscated, superCallingMethods, name, desc);
    if setVisible.Some? then setVisible.value else
    name
  }

  /** The definition chain computes the naming rule of the hook table. */
  lemma GetMethodNameFollowsTable(isObfuscated: bool, superCallingMethods: set<string>, name: string, desc: string)
    ensures GetMethodName(isObfuscated, superCallingMethods, name, desc) == HookName(isObfuscated, superCallingMethods, name, desc)
  {
    match Lookup(isObfuscated, name, desc)
    case None =>
      assert !Recognises(isObfuscated, GetArmForSideSpelling, name, desc);
      assert !Recognises(isObfuscated, GetMainHandSpelling, name, desc);
      assert !Recognises(isObfuscated, GetRandomModelBoxSpelling, name, desc);
      assert !Recognises(isObfuscated, GetTextureOffsetSpelling, name, desc);
      assert !Recognises(isObfuscated, PostRenderArmSpelling, name, desc);
      assert !Recognises(isObfuscated, RenderSpelling, name, desc);
      assert !Recognises(isObfuscated, SetLivingAnimationsSpelling, name, desc);
      assert !Recognises(isObfuscated, SetModelAttributesSpelling, name, desc);
      assert !Recognises(isObfuscated, SetRotationAnglesSpelling, name, desc);
      assert !Recognises(isObfuscated, SetTextureOffsetSpelling, name, desc);
      assert !Recognises(isObfuscated, SetVisibleSpelling, name, desc);
    case Some(h) =>
  }

  /** A method definition and a super call with the same name and descriptor get the same new name. */
  lemma ChainsAgree(isObfuscated: bool, superCallingMethods: set<string>, name: string, desc: string)
    ensures GetMethodName(isObfuscated, superCallingMethods, name, desc) == GetSuperMethodName(isObfuscated, superCallingMethods, name, desc)
  {
    GetMethodNameFollowsTable(isObfuscated, superCallingMethods, name, desc);
    GetSuperMethodNameFollowsTable(isObfuscated, superCallingMethods, name, desc);
  }

  /** Renaming an already renamed method changes nothing more. */
  lemma GetMethodNameIdempotent(isObfuscated: bool, superCallingMethods: set<string>, name: string, desc: string)
    ensures var once := GetMethodName(isObfuscated, superCallingMethods, name, desc);
      GetMethodName(isObfuscated, superCallingMethods, once, desc) == once
  {
    var once := GetMethodName(isObfuscated, superCallingMethods, name, desc);
    GetMethodNameFollowsTable(isObfuscated, superCallingMethods, name, desc);
    GetMethodNameFollowsTable(isObfuscated, superCallingMethods, once, desc);
    HookNameIdempotent(isObfuscated, superCallingMethods, name, desc);
  }

  /** Overrides of two different hooks that do not call their super methods get different names. */
  lemma DistinctHooksDistinctNames(isObfuscated: bool, superCallingMethods: set<string>, h1: Hook, name1: string, desc1: string, h2: Hook, name2: string, desc2: string)
    requires h1 != h2
    requires Matches(isObfuscated, h1, name1, desc1) && Key(name1, desc1) !in superCallingMethods
    requires Matches(isObfuscated, h2, name2, desc2) && Key(name2, desc2) !in superCallingMethods
    ensures GetMethodName(isObfuscated, superCallingMethods, name1, desc1) != GetMethodName(isObfuscated, superCallingMethods, name2, desc2)
  {
    GetMethodNameFollowsTable(isObfuscated, superCallingMethods, name1, desc1);
    GetMethodNameFollowsTable(isObfuscated, superCallingMethods, name2, desc2);
    HookNameOfHook(isObfuscated, superCallingMethods, h1, name1, desc1);
    HookNameOfHook(isObfuscated, superCallingMethods, h2, name2, desc2);
    SpellingsDistinct(h1, h2);
  }

  /** What `visit` records about an enhanced class; no such record means the class is left alone. */
  datatype Enhancement = Enhancement(
    originalSuperClassName: string,
    enhancerSuperClassName: string,
    superCallingMethods: set<string>)

  /** The record `visit` makes for a class with base class `superName`. */
  function EnhancementFor(isObfuscated: bool, scanResult: set<string>, superName: string): (r: Option<Enhancement>)
    ensures r.Some? <==> IsEnhancable(isObfuscated, superName)
    ensures r.Some? ==> r.value == Enhancement(superName, ModelPlayerArmorName, scanResult)
  {
    if IsEnhancable(isObfuscated, superName) then Some(Enhancement(superName, ModelPlayerArmorName, scanResult)) else None
  }

  /** A method that gets the renaming visitor: neither a constructor or class initialiser nor static. */
  predicate IsOrdinary(m: Method)
  {
    m.name != InitName && m.name != ClinitName && m.name != CinitName && !IsStatic(m.access)
  }

  /** What the writer receives for one method, according to the routing of `visitMethod`. */
  function TransformMethod(isObfuscated: bool, e: Option<Enhancement>, constructorRewrite: seq<Insn> -> seq<Insn>, m: Method): (r: Method)
    ensures r.access == m.access && r.desc == m.desc
    ensures e.None? || m.name == ClinitName || m.name == CinitName || (m.name != InitName && IsStatic(m.access)) ==> r == m
    ensures e.Some? && m.name == InitName ==> r == m.(body := constructorRewrite(m.body))
    ensures e.Some? && IsOrdinary(m) ==>
      && r.name == GetMethodName(isObfuscated, e.value.superCallingMethods, m.name, m.desc)
      && r.body == VisitCode(MethodVisitor(isObfuscated, e.value.originalSuperClassName, e.value.enhancerSuperClassName, e.value.superCallingMethods), m.body)
  {
    if e.Some? && m.name != CinitName && m.name != ClinitName then
      if m.name == InitName then
        m.(body := constructorRewrite(m.body))
      else if !IsStatic(m.access) then
        var mv := MethodVisitor(isObfuscated, e.value.originalSuperClassName, e.value.enhancerSuperClassName, e.value.superCallingMethods);
        Method(m.access, GetMethodName(isObfuscated, e.value.superCallingMethods, m.name, m.desc), m.desc, VisitCode(mv, m.body))
      else m
    else m
  }

  /** The methods, each passed through `visitMethod` in the order the reader visits them. */
  function TransformMethods(isObfuscated: bool, e: Option<Enhancement>, constructorRewrite: seq<Insn> -> seq<Insn>, ms: seq<Method>): (r: seq<Method>)
    ensures |r| == |ms|
    ensures forall i :: 0 <= i < |ms| ==> r[i] == TransformMethod(isObfuscated, e, constructorRewrite, ms[i])
  {
    if |ms| == 0 then []
    else TransformMethods(isObfuscated, e, constructorRewrite, ms[..|ms| - 1]) + [TransformMethod(isObfuscated, e, constructorRewrite, ms[|ms| - 1])]
  }

  /** The class the writer holds once the reader has visited `c`. */
  function Written(isObfuscated: bool, scanResult: set<string>, constructorRewrite: seq<Insn> -> seq<Insn>, c: ClassFile): (r: ClassFile)
    ensures r.name == c.name && r.interfaces == c.interfaces && |r.methods| == |c.methods|
    ensures r.superName == if IsEnhancable(isObfuscated, c.superName) then ModelPlayerArmorName else c.superName
    ensures forall i :: 0 <= i < |c.methods| ==>
      r.methods[i] == TransformMethod(isObfuscated, EnhancementFor(isObfuscated, scanResult, c.superName), constructorRewrite, c.methods[i])
  {
    ClassFile(
      c.name,
      if IsEnhancable(isObfuscated, c.superName) then ModelPlayerArmorName else c.superName,
      c.interfaces,
      TransformMethods(isObfuscated, EnhancementFor(isObfuscated, scanResult, c.superName), constructorRewrite, c.methods))
  }

  /**
   * `transform`: the writer's class when `visit` recorded an enhancement,
   * otherwise the input exactly as it came.
   */
  function TransformClass(isObfuscated: bool, scanResult: set<string>, constructorRewrite: seq<Insn> -> seq<Insn>, c: ClassFile): (r: ClassFile)
    ensures !IsEnhancable(isObfuscated, c.superName) ==> r == c
    ensures IsEnhancable(isObfuscated, c.superName) ==>
      && r.name == c.name && r.superName == ModelPlayerArmorName && r.interfaces == c.interfaces
      && |r.methods| == |c.methods|
      && forall i :: 0 <= i < |c.methods| ==> r.methods[i].access == c.methods[i].access && r.methods[i].desc == c.methods[i].desc
    ensures IsEnhancable(isObfuscated, c.superName) ==> forall i :: 0 <= i < |c.methods| ==>
      r.methods[i] == TransformMethod(isObfuscated, EnhancementFor(isObfuscated, scanResult, c.superName), constructorRewrite, c.methods[i])
  {
    if IsEnhancable(isObfuscated, c.superName) then Written(isObfuscated, scanResult, constructorRewrite, c) else c
  }

  /**
   * Returning the input for a class that is left alone loses nothing: the
   * writer would have received the very same class.
   */
  lemma WriterCopiesUnenhancedClass(isObfuscated: bool, scanResult: set<string>, constructorRewrite: seq<Insn> -> seq<Insn>, c: ClassFile)
    requires !IsEnhancable(isObfuscated, c.superName)
    ensures Written(isObfuscated, scanResult, constructorRewrite, c) == c
  {
    var ms := TransformMethods(isObfuscated, None, constructorRewrite, c.methods);
    assert ms == c.methods;
  }

  /** Transforming a transformed class changes nothing more: its new base class is not enhanced. */
  lemma TransformIdempotent(isObfuscated: bool, scanResult: set<string>, constructorRewrite: seq<Insn> -> seq<Insn>, c: ClassFile)
    ensures var once := TransformClass(isObfuscated, scanResult, constructorRewrite, c);
      TransformClass(isObfuscated, scanResult, constructorRewrite, once) == once
  {
    var once := TransformClass(isObfuscated, scanResult, constructorRewrite, c);
    assert once.superName == c.superName || once.superName == ModelPlayerArmorName;
    assert ModelPlayerArmorName[0] != ModelBipedName[0] && ModelPlayerArmorName[0] != ObfuscatedModelBipedName[0];
  }

  /**
   * In an enhanced class, an override of a hook is renamed to the hook's
   * alias unless it calls its super method, in which case it keeps its name.
   */
  lemma OverrideRenamed(isObfuscated: bool, scanResult: set<string>, constructorRewrite: seq<Insn> -> seq<Insn>, c: ClassFile, i: nat, h: Hook)
    requires IsEnhancable(isObfuscated, c.superName)
    requires i < |c.methods| && !IsStatic(c.methods[i].access)
    requires Matches(isObfuscated, h, c.methods[i].name, c.methods[i].desc)
    ensures var m := c.methods[i];
      TransformClass(isObfuscated, scanResult, constructorRewrite, c).methods[i].name
        == if Key(m.name, m.desc) in scanResult then m.name else SpellingOf(h).alias
  {
    var m := c.methods[i];
    FirstLetters(h);
    assert IsOrdinary(m);
    GetMethodNameFollowsTable(isObfuscated, scanResult, m.name, m.desc);
    HookNameOfHook(isObfuscated, scanResult, h, m.name, m.desc);
  }

  /** Constructors, class initialisers and static methods keep their names. */
  lemma SpecialMethodsKeepNames(isObfuscated: bool, scanResult: set<string>, constructorRewrite: seq<Insn> -> seq<Insn>, c: ClassFile, i: nat)
    requires i < |c.methods| && !IsOrdinary(c.methods[i])
    ensures TransformClass(isObfuscated, scanResult, constructorRewrite, c).methods[i].name == c.methods[i].name
  {
  }

  /**
   * The point of running both chains: after the transformation, a super
   * call from method `j` to the method defined as method `i` of the same
   * enhanced class names that method's new name, and whenever the name
   * changed the call is bound to the substitute base class.
   */
  lemma DefinitionAndCallSitesAgree(isObfuscated: bool, scanResult: set<string>, constructorRewrite: seq<Insn> -> seq<Insn>, c: ClassFile, i: nat, j: nat, k: nat)
    requires IsEnhancable(isObfuscated, c.superName)
    requires i < |c.methods| && IsOrdinary(c.methods[i])
    requires j < |c.methods| && IsOrdinary(c.methods[j])
    requires k < |c.methods[j].body|
    requires c.methods[j].body[k].MethodInsn? && c.methods[j].body[k].opcode == INVOKESPECIAL
    requires c.methods[j].body[k].owner == c.superName
    requires c.methods[j].body[k].name == c.methods[i].name && c.methods[j].body[k].desc == c.methods[i].desc
    ensures var out := TransformClass(isObfuscated, scanResult, constructorRewrite, c);
      && out.methods[j].body[k].name == out.methods[i].name
      && out.methods[j].body[k].owner == (if out.methods[i].name == c.methods[i].name then c.superName else ModelPlayerArmorName)
  {
    ChainsAgree(isObfuscated, scanResult, c.methods[i].name, c.methods[i].desc);
  }

  /**
   * The transformer object: `visit` decides whether the class is enhanced
   * and records how, `visitMethod` routes each method. `written` is the
   * class the writer behind it has received so far.
   */
  class ClassVisitor {
    const isObfuscated: bool
    /** What the class scanner reports for the class's bytes: the keys of the overrides that call their super methods. */
    const scanResult: set<string>
    /** The constructor visitor's rewriting of a constructor body. */
    const constructorRewrite: seq<Insn> -> seq<Insn>
    var enhancableClassName: Option<string>
    var superCallingMethods: set<string>
    var originalSuperClassName: string
    var enhancerSuperClassName: string
    var written: ClassFile

    constructor (isObfuscated: bool, scanResult: set<string>, constructorRewrite: seq<Insn> -> seq<Insn>)
      ensures this.isObfuscated == isObfuscated && this.scanResult == scanResult && this.constructorRewrite == constructorRewrite
      ensures enhancableClassName.None?
    {
      this.isObfuscated := isObfuscated;
      this.scanResult := scanResult;
      this.constructorRewrite := constructorRewrite;
      enhancableClassName := None;
      superCallingMethods := {};
      originalSuperClassName := "";
      enhancerSuperClassName := "";
      written := ClassFile("", "", [], []);
    }

    /** The enhancement the fields record. */
    function Current(): Option<Enhancement>
      reads this
    {
      if enhancableClassName.Some? then Some(Enhancement(originalSuperClassName, enhancerSuperClassName, superCallingMethods)) else None
    }

    /** `visit`: records the enhancement of an eligible class and forwards the header, with the new base class. */
    method Visit(name: string, superName: string, interfaces: seq<string>)
      modifies this
      ensures IsEnhancable(isObfuscated, superName) ==>
        && enhancableClassName == Some(name)
        && Current() == EnhancementFor(isObfuscated, scanResult, superName)
      ensures !IsEnhancable(isObfuscated, superName) ==>
        && enhancableClassName == old(enhancableClassName) && superCallingMethods == old(superCallingMethods)
        && originalSuperClassName == old(originalSuperClassName) && enhancerSuperClassName == old(enhancerSuperClassName)
      ensures written == ClassFile(name, if IsEnhancable(isObfuscated, superName) then ModelPlayerArmorName else superName, interfaces, [])
    {
      var newSuperName := superName;
      if (isObfuscated && superName == ObfuscatedModelBipedName) || superName == ModelBipedName {
        enhancableClassName := Some(name);
        originalSuperClassName := superName;
        newSuperName := if superName == ObfuscatedModelBipedName then ModelPlayerArmorName else ModelPlayerArmorName;
        enhancerSuperClassName := newSuperName;
        superCallingMethods := scanResult;
      }
      written := ClassFile(name, newSuperName, interfaces, []);
    }

    /** `visitMethod`: hands the method to the visitor its routing selects and the result to the writer. */
    method VisitMethod(m: Method)
      modifies this`written
      ensures written == old(written).(methods := old(written.methods) + [TransformMethod(isObfuscated, Current(), constructorRewrite, m)])
    {
      var out := m;
      if enhancableClassName.Some? && m.name != CinitName && m.name != ClinitName {
        if m.name == InitName {
          out := m.(body := constructorRewrite(m.body));
        } else if m.access & ACC_STATIC == 0 {
          var mv := MethodVisitor(isObfuscated, originalSuperClassName, enhancerSuperClassName, superCallingMethods);
          out := Method(m.access, GetMethodName(isObfuscated, superCallingMethods, m.name, m.desc), m.desc, VisitCode(mv, m.body));
        }
      }
      written := written.(methods := written.methods + [out]);
    }
  }

  /** The reader's traversal: the header first, then every method in order. */
  method Accept(c: ClassFile, cv: ClassVisitor)
    requires cv.enhancableClassName.None?
    modifies cv
    ensures cv.enhancableClassName.Some? <==> IsEnhancable(cv.isObfuscated, c.superName)
    ensures cv.Current() == EnhancementFor(cv.isObfuscated, cv.scanResult, c.superName)
    ensures cv.written == Written(cv.isObfuscated, cv.scanResult, cv.constructorRewrite, c)
  {
    cv.Visit(c.name, c.superName, c.interfaces);
    ghost var e := EnhancementFor(cv.isObfuscated, cv.scanResult, c.superName);
    var i := 0;
    while i < |c.methods|
      invariant 0 <= i <= |c.methods|
      invariant cv.enhancableClassName.Some? <==> IsEnhancable(cv.isObfuscated, c.superName)
      invariant cv.Current() == e
      invariant cv.written == Written(cv.isObfuscated, cv.scanResult, cv.constructorRewrite, c.(methods := c.methods[..i]))
    {
      assert c.methods[..i + 1][..i] == c.methods[..i];
      cv.VisitMethod(c.methods[i]);
      i := i + 1;
    }
    assert c.methods[..i] == c.methods;
  }

  /** `transform`: runs the reader over the class and keeps the writer's class only when it was enhanced. */
  method Transform(c: ClassFile, isObfuscated: bool, scanResult: set<string>, constructorRewrite: seq<Insn> -> seq<Insn>) returns (result: ClassFile)
    ensures result == TransformClass(isObfuscated, scanResult, constructorRewrite, c)
  {
    var cv := new ClassVisitor(isObfuscated, scanResult, constructorRewrite);
    Accept(c, cv);
    result := c;
    if cv.enhancableClassName.Some? {
      result := cv.written;
    }
  }
}
