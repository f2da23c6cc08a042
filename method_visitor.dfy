/**
 * The method visitor the class transformer puts in front of every non-static,
 * non-constructor method of an enhanced class. It redirects `INVOKESPECIAL`
 * calls of hook methods on the original base class to the substitute base
 * class, under the same renaming rule as the method definitions.
 */
module EnhancerMethodVisitor {
  import opened Wrappers
  import opened Bytecode
  import opened Hooks

  /** The visitor's final fields (those that only feed trace messages are left out). */
  datatype MethodVisitor = MethodVisitor(
    isObfuscated: bool,
    originalSuperClassName: string,
    enhancerSuperClassName: string,
    superCallingMethods: set<string>)

  // The call-site renaming chain, as the source writes it: eleven groups,
  // each of which either decides the name or falls through to the next one.
  // Each group is a function of its own here.

  /** The `getArmForSide` group: it recognises exactly the fingerprints of its row of the table. */
  function GetArmForSideGroup(isObfuscated: bool, superCallingMethods: set<string>, name: string, desc: string): (r: Option<string>)
    ensures r == Rename(isObfuscated, superCallingMethods, GetArmForSideSpelling, name, desc)
  {
    if isObfuscated then
      if name == "a" && desc == "(Lvo;)Lbrs;" then
        Some(if name + "___" + desc in superCallingMethods then name else "localGetArmForSide")
      else if name == "func_187074_a" && desc == "(Lnet/minecraft/util/EnumHandSide;)Lnet/minecraft/client/model/ModelRenderer;" then
        Some(if name + "___" + desc in superCallingMethods then name else "localGetArmForSide")
      else None
    else if name == "getArmForSide" && desc == "(Lnet/minecraft/util/EnumHandSide;)Lnet/minecraft/client/model/ModelRenderer;" then
      Some(if name + "___" + desc in superCallingMethods then name else "localGetArmForSide")
    else None
  }

  /** The `getMainHand` group: it recognises exactly the fingerprints of its row of the table. */
  function GetMainHandGroup(isObfuscated: bool, superCallingMethods: set<string>, name: string, desc: string): (r: Option<string>)
    ensures r == Rename(isObfuscated, superCallingMethods, GetMainHandSpelling, name, desc)
  {
    if isObfuscated then
      if name == "a" && desc == "(Lvg;)Lvo;" then
        Some(if name + "___" + desc in superCallingMethods then name else "localGetMainHand")
      else if name == "func_187072_a" && desc == "(Lnet/minecraft/entity/Entity;)Lnet/minecraft/util/EnumHandSide;" then
        Some(if name + "___" + desc in superCallingMethods then name else "localGetMainHand")
      else None
    else if name == "getMainHand" && desc == "(Lnet/minecraft/entity/Entity;)Lnet/minecraft/util/EnumHandSide;" then
      Some(if name + "___" + desc in superCallingMethods then name else "localGetMainHand")
    else None
  }

  /** The `getRandomModelBox` group: it recognises exactly the fingerprints of its row of the table. */
  function GetRandomModelBoxGroup(isObfuscated: bool, superCallingMethods: set<string>, name: string, desc: string): (r: Option<string>)
    ensures r == Rename(isObfuscated, superCallingMethods, GetRandomModelBoxSpelling, name, desc)
  {
    if isObfuscated then
      if name == "a" && desc == "(Ljava/util/Random;)Lbrs;" then
        Some(if name + "___" + desc in superCallingMethods then name else "localGetRandomModelBox")
      else if name == "func_85181_a" && desc == "(Ljava/util/Random;)Lnet/minecraft/client/model/ModelRenderer;" then
        Some(if name + "___" + desc in superCallingMethods then name else "localGetRandomModelBox")
      else None
    else if name == "getRandomModelBox" && desc == "(Ljava/util/Random;)Lnet/minecraft/client/model/ModelRenderer;" then
      Some(if name + "___" + desc in superCallingMethods then name else "localGetRandomModelBox")
    else None
  }

  /** The `getTextureOffset` group: it recognises exactly the fingerprints of its row of the table. */
  function GetTextureOffsetGroup(isObfuscated: bool, superCallingMethods: set<string>, name: string, desc: string): (r: Option<string>)
    ensures r == Rename(isObfuscated, superCallingMethods, GetTextureOffsetSpelling, name, desc)
  {
    if isObfuscated then
      if name == "a" && desc == "(Ljava/lang/String;)Lbrt;" then
        Some(if name + "___" + desc in superCallingMethods then name else "localGetTextureOffset")
      else if name == "func_78084_a" && desc == "(Ljava/lang/String;)Lnet/minecraft/client/model/TextureOffset;" then
        Some(if name + "___" + desc in superCallingMethods then name else "localGetTextureOffset")
      else None
    else if name == "getTextureOffset" && desc == "(Ljava/lang/String;)Lnet/minecraft/client/model/TextureOffset;" then
      Some(if name + "___" + desc in superCallingMethods then name else "localGetTextureOffset")
    else None
  }

  /** The `postRenderArm` group: it recognises exactly the fingerprints of its row of the table. */
  function PostRenderArmGroup(isObfuscated: bool, superCallingMethods: set<string>, name: string, desc: string): (r: Option<string>)
    ensures r == Rename(isObfuscated, superCallingMethods, PostRenderArmSpelling, name, desc)
  {
    if isObfuscated then
      if name == "a" && desc == "(FLvo;)V" then
        Some(if name + "___" + desc in superCallingMethods then name else "localPostRenderArm")
      else if name == "func_187073_a" && desc == "(FLnet/minecraft/util/EnumHandSide;)V" then
        Some(if name + "___" + desc in superCallingMethods then name else "localPostRenderArm")
      else None
    else if name == "postRenderArm" && desc == "(FLnet/minecraft/util/EnumHandSide;)V" then
      Some(if name + "___" + desc in superCallingMethods then name else "localPostRenderArm")
    else None
  }

  /** The `render` group: it recognises exactly the fingerprints of its row of the table. */
  function RenderGroup(isObfuscated: bool, superCallingMethods: set<string>, name: string, desc: string): (r: Option<string>)
    ensures r == Rename(isObfuscated, superCallingMethods, RenderSpelling, name, desc)
  {
    if isObfuscated then
      if name == "a" && desc == "(Lvg;FFFFFF)V" then
        Some(if name + "___" + desc in superCallingMethods then name else "localRender")
      else if name == "func_78088_a" && desc == "(Lnet/minecraft/entity/Entity;FFFFFF)V" then
        Some(if name + "___" + desc in superCallingMethods then name else "localRender")
      else None
    else if name == "render" && desc == "(Lnet/minecraft/entity/Entity;FFFFFF)V" then
      Some(if name + "___" + desc in superCallingMethods then name else "localRender")
    else None
  }

  /** The `setLivingAnimations` group: it recognises exactly the fingerprints of its row of the table. */
  function SetLivingAnimationsGroup(isObfuscated: bool, superCallingMethods: set<string>, name: string, desc: string): (r: Option<string>)
    ensures r == Rename(isObfuscated, superCallingMethods, SetLivingAnimationsSpelling, name, desc)
  {
    if isObfuscated then
      if name == "a" && desc == "(Lvp;FFF)V" then
        Some(if name + "___" + desc in superCallingMethods then name else "localSetLivingAnimations")
      else if name == "func_78086_a" && desc == "(Lnet/minecraft/entity/EntityLivingBase;FFF)V" then
        Some(if name + "___" + desc in superCallingMethods then name else "localSetLivingAnimations")
      else None
    else if name == "setLivingAnimations" && desc == "(Lnet/minecraft/entity/EntityLivingBase;FFF)V" then
      Some(if name + "___" + desc in superCallingMethods then name else "localSetLivingAnimations")
    else None
  }

  /** The `setModelAttributes` group: it recognises exactly the fingerprints of its row of the table. */
  function SetModelAttributesGroup(isObfuscated: bool, superCallingMethods: set<string>, name: string, desc: string): (r: Option<string>)
    ensures r == Rename(isObfuscated, superCallingMethods, SetModelAttributesSpelling, name, desc)
  {
    if isObfuscated then
      if name == "a" && desc == "(Lbqf;)V" then
        Some(if name + "___" + desc in superCallingMethods then name else "localSetModelAttributes")
      else if name == "func_178686_a" && desc == "(Lnet/minecraft/client/model/ModelBase;)V" then
        Some(if name + "___" + desc in superCallingMethods then name else "localSetModelAttributes")
      else None
    else if name == "setModelAttributes" && desc == "(Lnet/minecraft/client/model/ModelBase;)V" then
      Some(if name + "___" + desc in superCallingMethods then name else "localSetModelAttributes")
    else None
  }

  /** The `setRotationAngles` group: it recognises exactly the fingerprints of its row of the table. */
  function SetRotationAnglesGroup(isObfuscated: bool, superCallingMethods: set<string>, name: string, desc: string): (r: Option<string>)
    ensures r == Rename(isObfuscated, superCallingMethods, SetRotationAnglesSpelling, name, desc)
  {
    if isObfuscated then
      if name == "a" && desc == "(FFFFFFLvg;)V" then
        Some(if name + "___" + desc in superCallingMethods then name else "localSetRotationAngles")
      else if name == "func_78087_a" && desc == "(FFFFFFLnet/minecraft/entity/Entity;)V" then
        Some(if name + "___" + desc in superCallingMethods then name else "localSetRotationAngles")
      else None
    else if name == "setRotationAngles" && desc == "(FFFFFFLnet/minecraft/entity/Entity;)V" then
      Some(if name + "___" + desc in superCallingMethods then name else "localSetRotationAngles")
    else None
  }

  /** The `setTextureOffset` group: it recognises exactly the fingerprints of its row of the table. */
  function SetTextureOffsetGroup(isObfuscated: bool, superCallingMethods: set<string>, name: string, desc: string): (r: Option<string>)
    ensures r == Rename(isObfuscated, superCallingMethods, SetTextureOffsetSpelling, name, desc)
  {
    if isObfuscated then
      if name == "a" && desc == "(Ljava/lang/String;II)V" then
        Some(if name + "___" + desc in superCallingMethods then name else "localSetTextureOffset")
      else if name == "func_78085_a" && desc == "(Ljava/lang/String;II)V" then
        Some(if name + "___" + desc in superCallingMethods then name else "localSetTextureOffset")
      else None
    else if name == "setTextureOffset" && desc == "(Ljava/lang/String;II)V" then
      Some(if name + "___" + desc in superCallingMethods then name else "localSetTextureOffset")
    else None
  }

  /** The `setVisible` group: it recognises exactly the fingerprints of its row of the table. */
  function SetVisibleGroup(isObfuscated: bool, superCallingMethods: set<string>, name: string, desc: string): (r: Option<string>)
    ensures r == Rename(isObfuscated, superCallingMethods, SetVisibleSpelling, name, desc)
  {
    if isObfuscated then
      if name == "a" && desc == "(Z)V" then
        Some(if name + "___" + desc in superCallingMethods then name else "localSetVisible")
      else if name == "func_178719_a" && desc == "(Z)V" then
        Some(if name + "___" + desc in superCallingMethods then name else "localSetVisible")
      else None
    else if name == "setVisible" && desc == "(Z)V" then
      Some(if name + "___" + desc in superCallingMethods then name else "localSetVisible")
    else None
  }

  /**
   * The call-site renaming: the first group that recognises `(name, desc)`
   * decides the name; a name no group recognises is returned as it is.
   */
  function GetSuperMethodName(isObfuscated: bool, superCallingMethods: set<string>, name: string, desc: string): string
  {
    var getArmForSide := GetArmForSideGroup(isObfuscated, superCallingMethods, name, desc);
    if getArmForSide.Some? then getArmForSide.value else
    var getMainHand := GetMainHandGroup(isObfuscated, superCallingMethods, name, desc);
    if getMainHand.Some? then getMainHand.value else
    var getRandomModelBox := GetRandomModelBoxGroup(isObfuscated, superCallingMethods, name, desc);
    if getRandomModelBox.Some? then getRandomModelBox.value else
    var getTextureOffset := GetTextureOffsetGroup(isObfuscated, superCallingMethods, name, desc);
    if getTextureOffset.Some? then getTextureOffset.value else
    var postRenderArm := PostRenderArmGroup(isObfuscated, superCallingMethods, name, desc);
    if postRenderArm.Some? then postRenderArm.value else
    var render := RenderGroup(isObfuscated, superCallingMethods, name, desc);
    if render.Some? then render.value else
    var setLivingAnimations := SetLivingAnimationsGroup(isObfuscated, superCallingMethods, name, desc);
    if setLivingAnimations.Some? then setLivingAnimations.value else
    var setModelAttributes := SetModelAttributesGroup(isObfuscated, superCallingMethods, name, desc);
    if setModelAttributes.Some? then setModelAttributes.value else
    var setRotationAngles := SetRotationAnglesGroup(isObfuscated, superCallingMethods, name, desc);
    if setRotationAngles.Some? then setRotationAngles.value else
    var setTextureOffset := SetTextureOffsetGroup(isObfuscated, superCallingMethods, name, desc);
    if setTextureOffset.Some? then setTextureOffset.value else
    var setVisible := SetVisibleGroup(isObfuscated, superCallingMethods, name, desc);
    if setVisible.Some? then setVisible.value else
    name
  }

  /** The call-site chain computes the naming rule of the hook table. */
  lemma GetSuperMethodNameFollowsTable(isObfuscated: bool, superCallingMethods: set<string>, name: string, desc: string)
    ensures GetSuperMethodName(isObfuscated, superCallingMethods, name, desc) == HookName(isObfuscated, superCallingMethods, name, desc)
  {
    match Lookup(isObfuscated, name, desc)
    case None =>
      assert !Recognises(isObfuscated, GetArmForSideSpelling, name, desc);
      assert !Recognises(isObfuscated, GetMainHandSpelling, name, desc);
      assert !Recognises(isObfuscated, GetRandomModelBoxSpelling, name, desc);
      assert !Recognises(isObfuscated, GetTextureOffsetSpelling, name, desc);
      assert !Recognises(isObfuscated, PostRenderArmSpelling, name, desc);
      assert !Recognises(isObfuscated, RenderSpelling, name, desc);
      assert !Recognises(isObfuscated, SetLivingAnimationsSpelling, name, desc);
      assert !Recognises(isObfuscated, SetModelAttributesSpelling, name, desc);
      assert !Recognises(isObfuscated, SetRotationAnglesSpelling, name, desc);
      assert !Recognises(isObfuscated, SetTextureOffsetSpelling, name, desc);
      assert !Recognises(isObfuscated, SetVisibleSpelling, name, desc);
    case Some(h) =>
  }

  /**
   * A fingerprint of a hook keeps its name exactly when its key is among the
   * super-calling methods, and is otherwise renamed to the hook's alias.
   */
  lemma SuperMethodNameOfHook(isObfuscated: bool, superCallingMethods: set<string>, h: Hook, name: string, desc: string)
    requires Matches(isObfuscated, h, name, desc)
    ensures GetSuperMethodName(isObfuscated, superCallingMethods, name, desc) == name <==> Key(name, desc) in superCallingMethods
    ensures Key(name, desc) !in superCallingMethods ==> GetSuperMethodName(isObfuscated, superCallingMethods, name, desc) == SpellingOf(h).alias
  {
    GetSuperMethodNameFollowsTable(isObfuscated, superCallingMethods, name, desc);
    HookNameOfHook(isObfuscated, superCallingMethods, h, name, desc);
  }

  /** A name and descriptor that are no fingerprint of any hook are returned as they are. */
  lemma SuperMethodNameOfOther(isObfuscated: bool, superCallingMethods: set<string>, name: string, desc: string)
    requires forall h :: !Matches(isObfuscated, h, name, desc)
    ensures GetSuperMethodName(isObfuscated, superCallingMethods, name, desc) == name
  {
    GetSuperMethodNameFollowsTable(isObfuscated, superCallingMethods, name, desc);
  }

  /** The result is the name itself or one of the eleven aliases. */
  lemma SuperMethodNameRange(isObfuscated: bool, superCallingMethods: set<string>, name: string, desc: string)
    ensures var r := GetSuperMethodName(isObfuscated, superCallingMethods, name, desc); r == name || IsAlias(r)
  {
    GetSuperMethodNameFollowsTable(isObfuscated, superCallingMethods, name, desc);
    HookNameRange(isObfuscated, superCallingMethods, name, desc);
  }

  /**
   * The `a` and `func_…` spellings are recognised only in an obfuscated
   * environment, and the readable spelling only in a readable one.
   */
  lemma SuperMethodNameModeGating(superCallingMethods: set<string>, h: Hook)
    ensures GetSuperMethodName(false, superCallingMethods, ObfuscatedName, SpellingOf(h).obfuscatedDesc) == ObfuscatedName
    ensures GetSuperMethodName(false, superCallingMethods, SpellingOf(h).srgName, SpellingOf(h).readableDesc) == SpellingOf(h).srgName
    ensures GetSuperMethodName(true, superCallingMethods, SpellingOf(h).readableName, SpellingOf(h).readableDesc) == SpellingOf(h).readableName
  {
    var f := SpellingOf(h);
    forall g ensures !Matches(false, g, ObfuscatedName, f.obfuscatedDesc) && !Matches(false, g, f.srgName, f.readableDesc)
      && !Matches(true, g, f.readableName, f.readableDesc)
    {
      FirstLetters(g);
      FirstLetters(h);
    }
    SuperMethodNameOfOther(false, superCallingMethods, ObfuscatedName, f.obfuscatedDesc);
    SuperMethodNameOfOther(false, superCallingMethods, f.srgName, f.readableDesc);
    SuperMethodNameOfOther(true, superCallingMethods, f.readableName, f.readableDesc);
  }

  /** The two obfuscated spellings of one hook are renamed to the same alias. */
  lemma ObfuscatedSpellingsShareAlias(superCallingMethods: set<string>, h: Hook)
    requires Key(ObfuscatedName, SpellingOf(h).obfuscatedDesc) !in superCallingMethods
    requires Key(SpellingOf(h).srgName, SpellingOf(h).readableDesc) !in superCallingMethods
    ensures GetSuperMethodName(true, superCallingMethods, ObfuscatedName, SpellingOf(h).obfuscatedDesc) == SpellingOf(h).alias
    ensures GetSuperMethodName(true, superCallingMethods, SpellingOf(h).srgName, SpellingOf(h).readableDesc) == SpellingOf(h).alias
  {
    SuperMethodNameOfHook(true, superCallingMethods, h, ObfuscatedName, SpellingOf(h).obfuscatedDesc);
    SuperMethodNameOfHook(true, superCallingMethods, h, SpellingOf(h).srgName, SpellingOf(h).readableDesc);
  }

  /**
   * `visitMethodInsn`: an `INVOKESPECIAL` on the original base class whose
   * name the chain changes is renamed and redirected to the substitute base
   * class; every other instruction is forwarded as it is.
   */
  function VisitMethodInsn(mv: MethodVisitor, insn: Insn): (r: Insn)
    ensures insn.OtherInsn? ==> r == insn
    ensures insn.MethodInsn? ==> r.MethodInsn? && r.opcode == insn.opcode && r.desc == insn.desc && r.itf == insn.itf
    ensures insn.MethodInsn? && (insn.opcode != INVOKESPECIAL || insn.owner != mv.originalSuperClassName) ==> r == insn
    ensures insn.MethodInsn? && insn.opcode == INVOKESPECIAL && insn.owner == mv.originalSuperClassName ==>
      && r.name == GetSuperMethodName(mv.isObfuscated, mv.superCallingMethods, insn.name, insn.desc)
      && r.owner == (if r.name == insn.name then insn.owner else mv.enhancerSuperClassName)
  {
    match insn
    case OtherInsn(_) => insn
    case MethodInsn(opcode, owner, name, desc, itf) =>
      if opcode == INVOKESPECIAL && owner == mv.originalSuperClassName then
        var newName := GetSuperMethodName(mv.isObfuscated, mv.superCallingMethods, name, desc);
        if newName != name then MethodInsn(opcode, mv.enhancerSuperClassName, newName, desc, itf) else insn
      else insn
  }

  /**
   * A super call of a hook: when the override calls its super method the
   * instruction is left as it is, bound to the original base class; when it
   * does not, it calls the alias on the substitute base class.
   */
  lemma SuperCallOfHook(mv: MethodVisitor, h: Hook, itf: bool, name: string, desc: string)
    requires Matches(mv.isObfuscated, h, name, desc)
    ensures var r := VisitMethodInsn(mv, MethodInsn(INVOKESPECIAL, mv.originalSuperClassName, name, desc, itf));
      if Key(name, desc) in mv.superCallingMethods then r == MethodInsn(INVOKESPECIAL, mv.originalSuperClassName, name, desc, itf)
      else r == MethodInsn(INVOKESPECIAL, mv.enhancerSuperClassName, SpellingOf(h).alias, desc, itf)
  {
    SuperMethodNameOfHook(mv.isObfuscated, mv.superCallingMethods, h, name, desc);
  }

  /** The instructions of a method body, each passed through `visitMethodInsn` in order. */
  function VisitCode(mv: MethodVisitor, body: seq<Insn>): (r: seq<Insn>)
    ensures |r| == |body|
    ensures forall i :: 0 <= i < |body| ==> r[i] == VisitMethodInsn(mv, body[i])
  {
    seq(|body|, i requires 0 <= i < |body| => VisitMethodInsn(mv, body[i]))
  }
}
