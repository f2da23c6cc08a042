/**
 * The hook methods of the player model base class, written once as a table.
 * Both renaming chains of the transformer (the definition-site one and the
 * call-site one) are written out separately in their own modules, and each of
 * their groups is proved to recognise exactly one row of this table.
 */
module Hooks {
  import opened Wrappers

  /** The eleven hook methods of the base class. */
  datatype Hook =
    | GetArmForSide | GetMainHand | GetRandomModelBox | GetTextureOffset
    | PostRenderArm | Render | SetLivingAnimations | SetModelAttributes
    | SetRotationAngles | SetTextureOffset | SetVisible

  /**
   * One row of the table: in an obfuscated environment a hook is called `a`
   * with `obfuscatedDesc` (its descriptor under obfuscated class names), or
   * `srgName` with `readableDesc`; otherwise it is called `readableName` with
   * `readableDesc`. An override that does not call its super method is
   * renamed to `alias`.
   */
  datatype Spelling = Spelling(
    obfuscatedDesc: string, srgName: string,
    readableName: string, readableDesc: string,
    alias: string)

  /** The name every hook has in an obfuscated environment. */
  const ObfuscatedName: string := "a"

  const GetArmForSideSpelling := Spelling(
    "(Lvo;)Lbrs;", "func_187074_a",
    "getArmForSide", "(Lnet/minecraft/util/EnumHandSide;)Lnet/minecraft/client/model/ModelRenderer;",
    "localGetArmForSide")

  const GetMainHandSpelling := Spelling(
    "(Lvg;)Lvo;", "func_187072_a",
    "getMainHand", "(Lnet/minecraft/entity/Entity;)Lnet/minecraft/util/EnumHandSide;",
    "localGetMainHand")

  const GetRandomModelBoxSpelling := Spelling(
    "(Ljava/util/Random;)Lbrs;", "func_85181_a",
    "getRandomModelBox", "(Ljava/util/Random;)Lnet/minecraft/client/model/ModelRenderer;",
    "localGetRandomModelBox")

  const GetTextureOffsetSpelling := Spelling(
    "(Ljava/lang/String;)Lbrt;", "func_78084_a",
    "getTextureOffset", "(Ljava/lang/String;)Lnet/minecraft/client/model/TextureOffset;",
    "localGetTextureOffset")

  const PostRenderArmSpelling := Spelling(
    "(FLvo;)V", "func_187073_a",
    "postRenderArm", "(FLnet/minecraft/util/EnumHandSide;)V",
    "localPostRenderArm")

  const RenderSpelling := Spelling(
    "(Lvg;FFFFFF)V", "func_78088_a",
    "render", "(Lnet/minecraft/entity/Entity;FFFFFF)V",
    "localRender")

  const SetLivingAnimationsSpelling := Spelling(
    "(Lvp;FFF)V", "func_78086_a",
    "setLivingAnimations", "(Lnet/minecraft/entity/EntityLivingBase;FFF)V",
    "localSetLivingAnimations")

  const SetModelAttributesSpelling := Spelling(
    "(Lbqf;)V", "func_178686_a",
    "setModelAttributes", "(Lnet/minecraft/client/model/ModelBase;)V",
    "localSetModelAttributes")

  const SetRotationAnglesSpelling := Spelling(
    "(FFFFFFLvg;)V", "func_78087_a",
    "setRotationAngles", "(FFFFFFLnet/minecraft/entity/Entity;)V",
    "localSetRotationAngles")

  const SetTextureOffsetSpelling := Spelling(
    "(Ljava/lang/String;II)V", "func_78085_a",
    "setTextureOffset", "(Ljava/lang/String;II)V",
    "localSetTextureOffset")

  const SetVisibleSpelling := Spelling(
    "(Z)V", "func_178719_a",
    "setVisible", "(Z)V",
    "localSetVisible")

  function SpellingOf(h: Hook): Spelling
  {
    match h
    case GetArmForSide => GetArmForSideSpelling
    case GetMainHand => GetMainHandSpelling
    case GetRandomModelBox => GetRandomModelBoxSpelling
    case GetTextureOffset => GetTextureOffsetSpelling
    case PostRenderArm => PostRenderArmSpelling
    case Render => RenderSpelling
    case SetLivingAnimations => SetLivingAnimationsSpelling
    case SetModelAttributes => SetModelAttributesSpelling
    case SetRotationAngles => SetRotationAnglesSpelling
    case SetTextureOffset => SetTextureOffsetSpelling
    case SetVisible => SetVisibleSpelling
  }

  /** The key under which the super-call scanner records a method that calls its super method. */
  function Key(name: string, desc: string): string
  {
    name + "___" + desc
  }

  /** `(name, desc)` is a fingerprint of the row `f` in the given mode. */
  predicate Recognises(isObfuscated: bool, f: Spelling, name: string, desc: string)
  {
    if isObfuscated then
      (name == ObfuscatedName && desc == f.obfuscatedDesc) || (name == f.srgName && desc == f.readableDesc)
    else
      name == f.readableName && desc == f.readableDesc
  }

  predicate Matches(isObfuscated: bool, h: Hook, name: string, desc: string)
  {
    Recognises(isObfuscated, SpellingOf(h), name, desc)
  }

  /**
   * What one row decides: nothing when it does not recognise `(name, desc)`;
   * otherwise the name itself when the method calls its super method, and
   * the row's alias when it does not.
   */
  function Rename(isObfuscated: bool, superCallingMethods: set<string>, f: Spelling, name: string, desc: string): Option<string>
  {
    if Recognises(isObfuscated, f, name, desc) then
      Some(if Key(name, desc) in superCallingMethods then name else f.alias)
    else None
  }

  /** The hook `(name, desc)` is a fingerprint of, if any, trying the rows in table order. */
  function Lookup(isObfuscated: bool, name: string, desc: string): (r: Option<Hook>)
    ensures r.Some? ==> Matches(isObfuscated, r.value, name, desc)
  {
    if Recognises(isObfuscated, GetArmForSideSpelling, name, desc) then Some(GetArmForSide)
    else if Recognises(isObfuscated, GetMainHandSpelling, name, desc) then Some(GetMainHand)
    else if Recognises(isObfuscated, GetRandomModelBoxSpelling, name, desc) then Some(GetRandomModelBox)
    else if Recognises(isObfuscated, GetTextureOffsetSpelling, name, desc) then Some(GetTextureOffset)
    else if Recognises(isObfuscated, PostRenderArmSpelling, name, desc) then Some(PostRenderArm)
    else if Recognises(isObfuscated, RenderSpelling, name, desc) then Some(Render)
    else if Recognises(isObfuscated, SetLivingAnimationsSpelling, name, desc) then Some(SetLivingAnimations)
    else if Recognises(isObfuscated, SetModelAttributesSpelling, name, desc) then Some(SetModelAttributes)
    else if Recognises(isObfuscated, SetRotationAnglesSpelling, name, desc) then Some(SetRotationAngles)
    else if Recognises(isObfuscated, SetTextureOffsetSpelling, name, desc) then Some(SetTextureOffset)
    else if Recognises(isObfuscated, SetVisibleSpelling, name, desc) then Some(SetVisible)
    else None
  }

  /**
   * The naming rule: a method that is a fingerprint of a hook keeps its name
   * when its key is among the super-calling methods and otherwise takes the
   * hook's alias; any other method keeps its name.
   */
  function HookName(isObfuscated: bool, superCallingMethods: set<string>, name: string, desc: string): string
  {
    match Lookup(isObfuscated, name, desc)
    case None => name
    case Some(h) => if Key(name, desc) in superCallingMethods then name else SpellingOf(h).alias
  }

  ghost predicate IsAlias(s: string)
  {
    exists h :: SpellingOf(h).alias == s
  }

  /** When no row recognises `(name, desc)`, it is a fingerprint of no hook at all. */
  lemma LookupNone(isObfuscated: bool, name: string, desc: string, h: Hook)
    requires Lookup(isObfuscated, name, desc).None?
    ensures !Matches(isObfuscated, h, name, desc)
  {
    match h
    case GetArmForSide =>
    case GetMainHand =>
    case GetRandomModelBox =>
    case GetTextureOffset =>
    case PostRenderArm =>
    case Render =>
    case SetLivingAnimations =>
    case SetModelAttributes =>
    case SetRotationAngles =>
    case SetTextureOffset =>
    case SetVisible =>
  }

  /** Distinct hooks differ in every spelling that identifies them, and in their aliases. */
  lemma SpellingsDistinct(h1: Hook, h2: Hook)
    requires h1 != h2
    ensures SpellingOf(h1).obfuscatedDesc != SpellingOf(h2).obfuscatedDesc
    ensures SpellingOf(h1).srgName != SpellingOf(h2).srgName
    ensures SpellingOf(h1).readableName != SpellingOf(h2).readableName
    ensures SpellingOf(h1).alias != SpellingOf(h2).alias
  {
  }

  /** Aliases start with `l`, which neither `a`, nor a `func_…` name, nor a readable name does. */
  lemma FirstLetters(h: Hook)
    ensures |SpellingOf(h).alias| > 0 && SpellingOf(h).alias[0] == 'l'
    ensures |SpellingOf(h).srgName| > 0 && SpellingOf(h).srgName[0] == 'f'
    ensures |SpellingOf(h).readableName| > 0 && SpellingOf(h).readableName[0] in {'g', 'p', 'r', 's'}
    ensures ObfuscatedName[0] == 'a'
  {
  }

  /** A name and descriptor are a fingerprint of at most one hook. */
  lemma MatchIsUnique(isObfuscated: bool, h1: Hook, h2: Hook, name: string, desc: string)
    requires Matches(isObfuscated, h1, name, desc)
    ensures Matches(isObfuscated, h2, name, desc) <==> h1 == h2
  {
    if h1 != h2 {
      SpellingsDistinct(h1, h2);
      FirstLetters(h1);
      FirstLetters(h2);
    }
  }

  /** Lookup finds the hook of a fingerprint, whatever the order of the rows. */
  lemma LookupFinds(isObfuscated: bool, h: Hook, name: string, desc: string)
    requires Matches(isObfuscated, h, name, desc)
    ensures Lookup(isObfuscated, name, desc) == Some(h)
  {
    match Lookup(isObfuscated, name, desc)
    case None => LookupNone(isObfuscated, name, desc, h);
    case Some(g) => MatchIsUnique(isObfuscated, g, h, name, desc);
  }

  /** No alias is the name of a fingerprint of any hook, in either mode. */
  lemma AliasIsNoFingerprint(isObfuscated: bool, h: Hook, desc: string)
    ensures Lookup(isObfuscated, SpellingOf(h).alias, desc).None?
  {
    FirstLetters(h);
    forall g ensures !Matches(isObfuscated, g, SpellingOf(h).alias, desc) {
      FirstLetters(g);
    }
  }

  /** A fingerprint of a hook keeps its name exactly when its key is among the super-calling methods, and otherwise takes the alias. */
  lemma HookNameOfHook(isObfuscated: bool, superCallingMethods: set<string>, h: Hook, name: string, desc: string)
    requires Matches(isObfuscated, h, name, desc)
    ensures HookName(isObfuscated, superCallingMethods, name, desc) == name <==> Key(name, desc) in superCallingMethods
    ensures Key(name, desc) !in superCallingMethods ==> HookName(isObfuscated, superCallingMethods, name, desc) == SpellingOf(h).alias
  {
    LookupFinds(isObfuscated, h, name, desc);
    AliasIsNoFingerprint(isObfuscated, h, desc);
  }

  /** A method that is a fingerprint of no hook keeps its name. */
  lemma HookNameOfOther(isObfuscated: bool, superCallingMethods: set<string>, name: string, desc: string)
    requires forall h :: !Matches(isObfuscated, h, name, desc)
    ensures HookName(isObfuscated, superCallingMethods, name, desc) == name
  {
  }

  /** The rule yields the name itself or one of the aliases. */
  lemma HookNameRange(isObfuscated: bool, superCallingMethods: set<string>, name: string, desc: string)
    ensures HookName(isObfuscated, superCallingMethods, name, desc) == name || IsAlias(HookName(isObfuscated, superCallingMethods, name, desc))
  {
  }

  /** Renaming twice renames once: an alias is no fingerprint. */
  lemma HookNameIdempotent(isObfuscated: bool, superCallingMethods: set<string>, name: string, desc: string)
    ensures HookName(isObfuscated, superCallingMethods, HookName(isObfuscated, superCallingMethods, name, desc), desc)
         == HookName(isObfuscated, superCallingMethods, name, desc)
  {
    match Lookup(isObfuscated, name, desc)
    case None =>
    case Some(h) => AliasIsNoFingerprint(isObfuscated, h, desc);
  }
}
