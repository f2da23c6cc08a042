# Render Player API Enhancer: base-class substitution and hook renaming

Render Player API Enhancer rewrites player model classes as they are loaded.
A class whose base class is `net/minecraft/client/model/ModelBiped`, or `bpx`
when the game runs obfuscated, gets `api/player/model/ModelPlayerArmor` as its
base class instead. An override of one of eleven hook methods that does not
call its super method is renamed to the hook's `local…` alias; one that does
call it keeps its name. A super call to a hook on the original base class is
renamed the same way, and is bound to the new base class only when its name
changes. Any other class comes back exactly as it was.

This model covers the two visitors that do the work:

- `Hooks` is the table of the eleven hooks, written once as data. Each row
  holds the obfuscated descriptor, the SRG name, the readable name and
  descriptor, and the `local…` alias. The module also states the naming rule
  the table implies: a hook override keeps its name when its
  `name + "___" + desc` key is among the super-calling methods. Otherwise it
  takes the alias, and any other name is kept. An obfuscated environment
  recognises the name `a` with the obfuscated descriptor, or the SRG name with
  the readable descriptor. A readable environment recognises the readable name
  with the readable descriptor.
- `EnhancerMethodVisitor` holds the call-site chain `GetSuperMethodName`,
  transcribed group by group from the method visitor. It also holds
  `VisitMethodInsn`, which rewrites one instruction.
- `EnhancerClassVisitor` holds the definition chain `GetMethodName`,
  transcribed separately from the class visitor. It also holds the routing of
  `visitMethod`, the `ClassVisitor` class with `visit` and `visitMethod` as
  methods over its fields, the reader's traversal `Accept`, and `Transform`.

The source writes both chains as long if-chains. Each chain is proved to
compute the table's rule, so the two chains agree on every input
(`ChainsAgree`). As a result, a renamed definition and the super calls to it
from every non-static, non-constructor method of the class name the same
method (`DefinitionAndCallSitesAgree`). Calls inside constructors go to the
constructor visitor, and calls in static methods and class initialisers are
not rewritten.

`ModelPlayerAPIEnhancerClassVisitor.java:75` chooses the new base class with a
conditional whose two branches are the same name. The model does the same.

## Model

| member | source | states |
|---|---|---|
| Hooks.Lookup | src/main/java/api/player/model/ModelPlayerAPIEnhancerClassVisitor.java:103-579 | a hook it finds is one whose fingerprint the name and descriptor are |
| Hooks.LookupNone | src/main/java/api/player/model/ModelPlayerAPIEnhancerClassVisitor.java:103-579 | when it finds nothing, no row of the table recognises the name and descriptor |
| Hooks.SpellingsDistinct | src/main/java/api/player/model/ModelPlayerAPIEnhancerClassVisitor.java:105-576 | two different hooks differ in obfuscated descriptor, SRG name, readable name and alias |
| Hooks.FirstLetters | src/main/java/api/player/model/ModelPlayerAPIEnhancerClassVisitor.java:105-576 | every alias starts with `l`, every SRG name with `f`, every readable name with `g`, `p`, `r` or `s`, and the obfuscated name is `a` |
| Hooks.MatchIsUnique | src/main/java/api/player/model/ModelPlayerAPIEnhancerClassVisitor.java:105-576 | at most one hook recognises a name and descriptor, so the order of the groups decides no name |
| Hooks.LookupFinds | src/main/java/api/player/model/ModelPlayerAPIEnhancerClassVisitor.java:105-576 | the fingerprint of a hook is found as that hook |
| Hooks.AliasIsNoFingerprint | src/main/java/api/player/model/ModelPlayerAPIEnhancerClassVisitor.java:105-576 | no alias is a fingerprint of any hook, in either environment |
| Hooks.HookNameOfHook | src/main/java/api/player/model/ModelPlayerAPIEnhancerClassVisitor.java:105-576 | a hook's fingerprint keeps its name exactly when its key is among the super-calling methods, and is otherwise renamed to the hook's alias |
| Hooks.HookNameOfOther | src/main/java/api/player/model/ModelPlayerAPIEnhancerClassVisitor.java:578 | a name and descriptor that no hook recognises are returned as they are |
| Hooks.HookNameRange | src/main/java/api/player/model/ModelPlayerAPIEnhancerClassVisitor.java:103-579 | the new name is the old name or one of the eleven aliases |
| Hooks.HookNameIdempotent | src/main/java/api/player/model/ModelPlayerAPIEnhancerClassVisitor.java:103-579 | renaming the new name again changes nothing |
| EnhancerMethodVisitor.GetArmForSideGroup | src/main/java/api/player/model/ModelPlayerAPIEnhancerMethodVisitor.java:65-106 | it decides exactly the fingerprints of the `getArmForSide` row (in an obfuscated environment `a` with the obfuscated descriptor, or the SRG name with the readable descriptor; otherwise the readable name and descriptor), keeping the name when its key is among the super-calling methods and giving `localGetArmForSide` otherwise |
| EnhancerMethodVisitor.GetMainHandGroup | src/main/java/api/player/model/ModelPlayerAPIEnhancerMethodVisitor.java:108-149 | it decides exactly the fingerprints of the `getMainHand` row (in an obfuscated environment `a` with the obfuscated descriptor, or the SRG name with the readable descriptor; otherwise the readable name and descriptor), keeping the name when its key is among the super-calling methods and giving `localGetMainHand` otherwise |
| EnhancerMethodVisitor.GetRandomModelBoxGroup | src/main/java/api/player/model/ModelPlayerAPIEnhancerMethodVisitor.java:151-192 | it decides exactly the fingerprints of the `getRandomModelBox` row (in an obfuscated environment `a` with the obfuscated descriptor, or the SRG name with the readable descriptor; otherwise the readable name and descriptor), keeping the name when its key is among the super-calling methods and giving `localGetRandomModelBox` otherwise |
| EnhancerMethodVisitor.GetTextureOffsetGroup | src/main/java/api/player/model/ModelPlayerAPIEnhancerMethodVisitor.java:194-235 | it decides exactly the fingerprints of the `getTextureOffset` row (in an obfuscated environment `a` with the obfuscated descriptor, or the SRG name with the readable descriptor; otherwise the readable name and descriptor), keeping the name when its key is among the super-calling methods and giving `localGetTextureOffset` otherwise |
| EnhancerMethodVisitor.PostRenderArmGroup | src/main/java/api/player/model/ModelPlayerAPIEnhancerMethodVisitor.java:237-278 | it decides exactly the fingerprints of the `postRenderArm` row (in an obfuscated environment `a` with the obfuscated descriptor, or the SRG name with the readable descriptor; otherwise the readable name and descriptor), keeping the name when its key is among the super-calling methods and giving `localPostRenderArm` otherwise |
| EnhancerMethodVisitor.RenderGroup | src/main/java/api/player/model/ModelPlayerAPIEnhancerMethodVisitor.java:280-321 | it decides exactly the fingerprints of the `render` row (in an obfuscated environment `a` with the obfuscated descriptor, or the SRG name with the readable descriptor; otherwise the readable name and descriptor), keeping the name when its key is among the super-calling methods and giving `localRender` otherwise |
| EnhancerMethodVisitor.SetLivingAnimationsGroup | src/main/java/api/player/model/ModelPlayerAPIEnhancerMethodVisitor.java:323-364 | it decides exactly the fingerprints of the `setLivingAnimations` row (in an obfuscated environment `a` with the obfuscated descriptor, or the SRG name with the readable descriptor; otherwise the readable name and descriptor), keeping the name when its key is among the super-calling methods and giving `localSetLivingAnimations` otherwise |
| EnhancerMethodVisitor.SetModelAttributesGroup | src/main/java/api/player/model/ModelPlayerAPIEnhancerMethodVisitor.java:366-407 | it decides exactly the fingerprints of the `setModelAttributes` row (in an obfuscated environment `a` with the obfuscated descriptor, or the SRG name with the readable descriptor; otherwise the readable name and descriptor), keeping the name when its key is among the super-calling methods and giving `localSetModelAttributes` otherwise |
| EnhancerMethodVisitor.SetRotationAnglesGroup | src/main/java/api/player/model/ModelPlayerAPIEnhancerMethodVisitor.java:409-450 | it decides exactly the fingerprints of the `setRotationAngles` row (in an obfuscated environment `a` with the obfuscated descriptor, or the SRG name with the readable descriptor; otherwise the readable name and descriptor), keeping the name when its key is among the super-calling methods and giving `localSetRotationAngles` otherwise |
| EnhancerMethodVisitor.SetTextureOffsetGroup | src/main/java/api/player/model/ModelPlayerAPIEnhancerMethodVisitor.java:452-493 | it decides exactly the fingerprints of the `setTextureOffset` row (in an obfuscated environment `a` with the obfuscated descriptor, or the SRG name with the readable descriptor; otherwise the readable name and descriptor), keeping the name when its key is among the super-calling methods and giving `localSetTextureOffset` otherwise |
| EnhancerMethodVisitor.SetVisibleGroup | src/main/java/api/player/model/ModelPlayerAPIEnhancerMethodVisitor.java:495-536 | it decides exactly the fingerprints of the `setVisible` row (in an obfuscated environment `a` with the obfuscated descriptor, or the SRG name with the readable descriptor; otherwise the readable name and descriptor), keeping the name when its key is among the super-calling methods and giving `localSetVisible` otherwise |
| EnhancerMethodVisitor.GetSuperMethodName | src/main/java/api/player/model/ModelPlayerAPIEnhancerMethodVisitor.java:63-539 | no contract of its own; `GetSuperMethodNameFollowsTable` states what it computes |
| EnhancerMethodVisitor.GetSuperMethodNameFollowsTable | src/main/java/api/player/model/ModelPlayerAPIEnhancerMethodVisitor.java:63-539 | the call-site chain computes the naming rule of the hook table on every input |
| EnhancerMethodVisitor.SuperMethodNameOfHook | src/main/java/api/player/model/ModelPlayerAPIEnhancerMethodVisitor.java:63-539 | a call to a hook keeps its name exactly when the override's key is among the super-calling methods, and otherwise names the hook's alias |
| EnhancerMethodVisitor.SuperMethodNameOfOther | src/main/java/api/player/model/ModelPlayerAPIEnhancerMethodVisitor.java:538 | a call to a method that is no hook keeps its name |
| EnhancerMethodVisitor.SuperMethodNameRange | src/main/java/api/player/model/ModelPlayerAPIEnhancerMethodVisitor.java:63-539 | the new name is the old name or one of the eleven aliases |
| EnhancerMethodVisitor.SuperMethodNameModeGating | src/main/java/api/player/model/ModelPlayerAPIEnhancerMethodVisitor.java:63-539 | the `a` and SRG spellings are not recognised in a readable environment, nor the readable spelling in an obfuscated one |
| EnhancerMethodVisitor.ObfuscatedSpellingsShareAlias | src/main/java/api/player/model/ModelPlayerAPIEnhancerMethodVisitor.java:65-106 | in an obfuscated environment both spellings of a hook are renamed to the same alias |
| EnhancerMethodVisitor.VisitMethodInsn | src/main/java/api/player/model/ModelPlayerAPIEnhancerMethodVisitor.java:49-61 | only an `INVOKESPECIAL` on the original base class is touched; opcode, descriptor and interface flag are kept; the owner becomes the substitute base class exactly when the name changes |
| EnhancerMethodVisitor.SuperCallOfHook | src/main/java/api/player/model/ModelPlayerAPIEnhancerMethodVisitor.java:49-61 | a super call of a hook stays on the original base class when the override calls its super method, and otherwise calls the alias on the substitute base class |
| EnhancerMethodVisitor.VisitCode | src/main/java/api/player/model/ModelPlayerAPIEnhancerMethodVisitor.java:49-61 | a body keeps its length and each instruction is rewritten on its own |
| EnhancerClassVisitor.GetArmForSideGroup | src/main/java/api/player/model/ModelPlayerAPIEnhancerClassVisitor.java:105-146 | it decides exactly the fingerprints of the `getArmForSide` row (in an obfuscated environment `a` with the obfuscated descriptor, or the SRG name with the readable descriptor; otherwise the readable name and descriptor), keeping the name when its key is among the super-calling methods and giving `localGetArmForSide` otherwise |
| EnhancerClassVisitor.GetMainHandGroup | src/main/java/api/player/model/ModelPlayerAPIEnhancerClassVisitor.java:148-189 | it decides exactly the fingerprints of the `getMainHand` row (in an obfuscated environment `a` with the obfuscated descriptor, or the SRG name with the readable descriptor; otherwise the readable name and descriptor), keeping the name when its key is among the super-calling methods and giving `localGetMainHand` otherwise |
| EnhancerClassVisitor.GetRandomModelBoxGroup | src/main/java/api/player/model/ModelPlayerAPIEnhancerClassVisitor.java:191-232 | it decides exactly the fingerprints of the `getRandomModelBox` row (in an obfuscated environment `a` with the obfuscated descriptor, or the SRG name with the readable descriptor; otherwise the readable name and descriptor), keeping the name when its key is among the super-calling methods and giving `localGetRandomModelBox` otherwise |
| EnhancerClassVisitor.GetTextureOffsetGroup | src/main/java/api/player/model/ModelPlayerAPIEnhancerClassVisitor.java:234-275 | it decides exactly the fingerprints of the `getTextureOffset` row (in an obfuscated environment `a` with the obfuscated descriptor, or the SRG name with the readable descriptor; otherwise the readable name and descriptor), keeping the name when its key is among the super-calling methods and giving `localGetTextureOffset` otherwise |
| EnhancerClassVisitor.PostRenderArmGroup | src/main/java/api/player/model/ModelPlayerAPIEnhancerClassVisitor.java:277-318 | it decides exactly the fingerprints of the `postRenderArm` row (in an obfuscated environment `a` with the obfuscated descriptor, or the SRG name with the readable descriptor; otherwise the readable name and descriptor), keeping the name when its key is among the super-calling methods and giving `localPostRenderArm` otherwise |
| EnhancerClassVisitor.RenderGroup | src/main/java/api/player/model/ModelPlayerAPIEnhancerClassVisitor.java:320-361 | it decides exactly the fingerprints of the `render` row (in an obfuscated environment `a` with the obfuscated descriptor, or the SRG name with the readable descriptor; otherwise the readable name and descriptor), keeping the name when its key is among the super-calling methods and giving `localRender` otherwise |
| EnhancerClassVisitor.SetLivingAnimationsGroup | src/main/java/api/player/model/ModelPlayerAPIEnhancerClassVisitor.java:363-404 | it decides exactly the fingerprints of the `setLivingAnimations` row (in an obfuscated environment `a` with the obfuscated descriptor, or the SRG name with the readable descriptor; otherwise the readable name and descriptor), keeping the name when its key is among the super-calling methods and giving `localSetLivingAnimations` otherwise |
| EnhancerClassVisitor.SetModelAttributesGroup | src/main/java/api/player/model/ModelPlayerAPIEnhancerClassVisitor.java:406-447 | it decides exactly the fingerprints of the `setModelAttributes` row (in an obfuscated environment `a` with the obfuscated descriptor, or the SRG name with the readable descriptor; otherwise the readable name and descriptor), keeping the name when its key is among the super-calling methods and giving `localSetModelAttributes` otherwise |
| EnhancerClassVisitor.SetRotationAnglesGroup | src/main/java/api/player/model/ModelPlayerAPIEnhancerClassVisitor.java:449-490 | it decides exactly the fingerprints of the `setRotationAngles` row (in an obfuscated environment `a` with the obfuscated descriptor, or the SRG name with the readable descriptor; otherwise the readable name and descriptor), keeping the name when its key is among the super-calling methods and giving `localSetRotationAngles` otherwise |
| EnhancerClassVisitor.SetTextureOffsetGroup | src/main/java/api/player/model/ModelPlayerAPIEnhancerClassVisitor.java:492-533 | it decides exactly the fingerprints of the `setTextureOffset` row (in an obfuscated environment `a` with the obfuscated descriptor, or the SRG name with the readable descriptor; otherwise the readable name and descriptor), keeping the name when its key is among the super-calling methods and giving `localSetTextureOffset` otherwise |
| EnhancerClassVisitor.SetVisibleGroup | src/main/java/api/player/model/ModelPlayerAPIEnhancerClassVisitor.java:535-576 | it decides exactly the fingerprints of the `setVisible` row (in an obfuscated environment `a` with the obfuscated descriptor, or the SRG name with the readable descriptor; otherwise the readable name and descriptor), keeping the name when its key is among the super-calling methods and giving `localSetVisible` otherwise |
| EnhancerClassVisitor.GetMethodName | src/main/java/api/player/model/ModelPlayerAPIEnhancerClassVisitor.java:103-579 | no contract of its own; `GetMethodNameFollowsTable` states what it computes |
| EnhancerClassVisitor.GetMethodNameFollowsTable | src/main/java/api/player/model/ModelPlayerAPIEnhancerClassVisitor.java:103-579 | the definition chain computes the naming rule of the hook table on every input |
| EnhancerClassVisitor.ChainsAgree | src/main/java/api/player/model/ModelPlayerAPIEnhancerClassVisitor.java:103-579 | the definition chain and the call-site chain give the same name for every name, descriptor, environment and set |
| EnhancerClassVisitor.GetMethodNameIdempotent | src/main/java/api/player/model/ModelPlayerAPIEnhancerClassVisitor.java:103-579 | renaming a renamed method changes nothing more |
| EnhancerClassVisitor.DistinctHooksDistinctNames | src/main/java/api/player/model/ModelPlayerAPIEnhancerClassVisitor.java:103-579 | overrides of two different hooks that do not call their super methods get different names |
| EnhancerClassVisitor.IsEnhancable | src/main/java/api/player/model/ModelPlayerAPIEnhancerClassVisitor.java:71 | the eligibility test, written as the source writes it; `EnhancementFor` states what follows from it |
| EnhancerClassVisitor.EnhancementFor | src/main/java/api/player/model/ModelPlayerAPIEnhancerClassVisitor.java:68-83 | a class is enhanced exactly when its base class is `ModelBiped`, or `bpx` in an obfuscated environment; the record holds the old base class, `ModelPlayerArmor` and the scanner's set |
| EnhancerClassVisitor.IsOrdinary | src/main/java/api/player/model/ModelPlayerAPIEnhancerClassVisitor.java:88-98 | the methods that get the renaming visitor: neither `<init>`, `<clinit>` nor `<cinit>`, and not static; `TransformMethod` states the routing it selects |
| EnhancerClassVisitor.TransformMethod | src/main/java/api/player/model/ModelPlayerAPIEnhancerClassVisitor.java:85-101 | access and descriptor are kept; class initialisers, static methods and every method of a class left alone pass through; a constructor gets the constructor rewriting; any other method gets the definition name and the call-site rewriting |
| EnhancerClassVisitor.TransformMethods | src/main/java/api/player/model/ModelPlayerAPIEnhancerClassVisitor.java:85-101 | each method is routed on its own and the order is kept |
| EnhancerClassVisitor.Written | src/main/java/api/player/model/ModelPlayerAPIEnhancerClassVisitor.java:39 | the writer's class after the reader's traversal keeps the name and interfaces, extends `ModelPlayerArmor` exactly for an eligible class, and holds each method routed on its own, in order |
| EnhancerClassVisitor.TransformClass | src/main/java/api/player/model/ModelPlayerAPIEnhancerClassVisitor.java:30-52 | a class left alone is returned exactly; an enhanced one keeps its name, interfaces and the access and descriptor of each method, and extends `ModelPlayerArmor`, and each of its methods is routed as `visitMethod` routes it |
| EnhancerClassVisitor.WriterCopiesUnenhancedClass | src/main/java/api/player/model/ModelPlayerAPIEnhancerClassVisitor.java:41-44 | for a class left alone the writer would have received the input unchanged, so returning the input loses nothing |
| EnhancerClassVisitor.TransformIdempotent | src/main/java/api/player/model/ModelPlayerAPIEnhancerClassVisitor.java:68-83 | transforming a transformed class changes nothing more |
| EnhancerClassVisitor.OverrideRenamed | src/main/java/api/player/model/ModelPlayerAPIEnhancerClassVisitor.java:95-98 | in an enhanced class an override of a hook gets the hook's alias unless it calls its super method |
| EnhancerClassVisitor.SpecialMethodsKeepNames | src/main/java/api/player/model/ModelPlayerAPIEnhancerClassVisitor.java:85-101 | constructors, class initialisers and static methods keep their names |
| EnhancerClassVisitor.DefinitionAndCallSitesAgree | src/main/java/api/player/model/ModelPlayerAPIEnhancerClassVisitor.java:95-98 | in an enhanced class a super call to the class's own method names that method's new name, and is bound to `ModelPlayerArmor` whenever the name changed |
| EnhancerClassVisitor.ClassVisitor.constructor | src/main/java/api/player/model/ModelPlayerAPIEnhancerClassVisitor.java:54-59 | a new transformer holds its environment flag and has recorded no enhancement |
| EnhancerClassVisitor.ClassVisitor.Visit | src/main/java/api/player/model/ModelPlayerAPIEnhancerClassVisitor.java:68-83 | an eligible class records its name, the old and new base classes and the scanner's set, and the header is forwarded with `ModelPlayerArmor`; any other class changes no field and is forwarded as it is |
| EnhancerClassVisitor.ClassVisitor.VisitMethod | src/main/java/api/player/model/ModelPlayerAPIEnhancerClassVisitor.java:85-101 | the writer receives exactly the routed method after the ones it had |
| EnhancerClassVisitor.Accept | src/main/java/api/player/model/ModelPlayerAPIEnhancerClassVisitor.java:39 | after the traversal the writer holds the routed class, and the recorded enhancement is exactly the one `visit` makes for the class's base class |
| EnhancerClassVisitor.Transform | src/main/java/api/player/model/ModelPlayerAPIEnhancerClassVisitor.java:30-52 | the result is the routed class for an eligible class and the input otherwise |

## Left out

- Parsing and writing class files: the ASM reader, the writer,
  `COMPUTE_MAXS` and the `IOException` wrapping are not modelled. A class
  is a `ClassFile` value, and the writer is the `written` field of
  `ClassVisitor`.
- The class scanner: `ModelPlayerAPIEnhancerClassScanner` is not part of this
  model. The set it computes from the class's bytes is the input `scanResult`.
- The constructor visitor: `ModelPlayerAPIEnhancerConstructorVisitor` is not
  part of this model. Its rewriting of a constructor body is the function
  parameter `constructorRewrite`.
- Logging: the `info` and `log` calls, and the `enhancedName`,
  `enhancedDesc` and `enhancableClassName` fields of the method visitor,
  only feed log messages.
- The dotted class name: `enhancableClassName` is kept in slash form,
  because the `/` to `.` replacement only matters when the name is printed.
- Class headers beyond name, base class and interfaces, and method headers
  beyond access, name, descriptor and body, are not modelled. This covers
  version, signature, exceptions, fields, attributes and non-call
  instructions, which the transformer only forwards.
- Accept: the reader hands each method's instructions to the visitor
  returned by `visitMethod` one at a time. The model hands it the whole body
  at once. The visit order and the result are the same.
- A `null` base class (`java/lang/Object` has none) is not modelled: every
  `ClassFile` has a base-class name.
- Loading through the mod container and transformer registration are
  outside the two visitors.
- Hook count and eligibility: the code has eleven hooks and accepts
  `ModelBiped` in both environments (`ModelPlayerAPIEnhancerClassVisitor.java:71`);
  the model follows the code.
