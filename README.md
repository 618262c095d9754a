# Vulkan instance capability gating, modelled in Dafny

This project models the instance set-up of the `HelloTriangleApplication`
Vulkan tutorial program. When validation is on, the application requires the
Khronos validation layer. It also requires the extensions the window system
(GLFW) asks for, plus the debug-utils extension when validation is on. It
checks each required name, in order, against what the Vulkan loader
enumerates, and it aborts on the first name that is missing. After the
instance exists, it registers a debug messenger with fixed severity and type
masks, but only when validation is on. The messenger's callback logs warnings
and errors and always returns `VK_FALSE`.

The project has four modules, one per concern:

- `CStrings` (`cstrings.dfy`): `strcmp`, and the `none_of` exact-match scan over an enumerated property list.
- `Gating` (`gating.dfy`): the validation-layer and debug-utils constants, the required lists, and the fail-fast check loop. It also holds `CreateInstanceOutcome`, a function stating what `createInstance` decides, with its lemmas.
- `Diagnostics` (`diagnostics.dfy`): the severity and message-type flags, the messenger's registration masks and the callback.
- `Application` (`application.dfy`): the class whose `instance` and `debugMessenger` fields `createInstance`, `setupDebugMessenger` and `initVulkan` assign in sequence. A ghost creation log records the order of creation.

Inputs that come from outside the program are parameters:

- The loader's layer and extension enumerations are `seq<string>` of names.
- GLFW's required-extension list is a `seq<string>`.
- The build-mode switch `enableValidationLayers` is a constructor argument.

The `throw` in `createInstance` becomes a returned `Option<CreateError>`. Its two constructors correspond to the two exception messages.

## Model

| member | source | states |
|---|---|---|
| CStrings.StrCmp | attachments/00_base_code.cpp:95 | `strcmp` returns zero exactly when the two names are equal. Its result is a sign in -1..1. |
| CStrings.NoneOf | attachments/00_base_code.cpp:95 | The `none_of` scan with the `strcmp == 0` predicate holds exactly when the name is not in the enumerated list. |
| CStrings.NoPrefixMatch | attachments/00_base_code.cpp:106 | An enumerated name made of the required name plus more characters does not match it, so there is no prefix matching. The lemma also gives the sign: `strcmp` orders the longer name after the shorter one. The program never reads that sign. |
| Gating.ErrorMessage | attachments/00_base_code.cpp:97 | The exception text ends with the missing name. It is longer than that name, because a prefix comes first. |
| Gating.ErrorMessageTellsKind | attachments/00_base_code.cpp:97-108 | A missing-layer message never equals a missing-extension message. |
| Gating.RequiredLayers | attachments/00_base_code.cpp:86-90 | The required layer list is non-empty exactly when validation is on. Each of its names is the validation layer at the same position. |
| Gating.RequiredExtensions | attachments/00_base_code.cpp:138-151 | The required extension list starts with the window-system extensions, in their order. Its length is their count plus one when validation is on, and then it ends with the debug-utils extension. |
| Gating.FirstMissing | attachments/00_base_code.cpp:93-99 | No name is reported exactly when every required name is supported. A reported name is required and unsupported, and every name before it is supported. |
| Gating.FirstMissingNamesFirst | attachments/00_base_code.cpp:93-99 | A name that is the first unsupported one in required order is the name reported. |
| Gating.CreateInstanceOutcome | attachments/00_base_code.cpp:77-119 | Layers are checked before extensions. A layer error names a required, unsupported layer. An extension error means every layer passed and names a required, unsupported extension. On success the create info carries both required lists and their lengths. |
| Gating.FirstMissingIndex | attachments/00_base_code.cpp:93-99 | The result is a position `i` no greater than the list's length. Every name before `i` is supported. When `i` lies inside the list, the name at `i` is not supported. |
| Gating.FirstMissingIsFirst | attachments/00_base_code.cpp:93-99 | An unsupported name whose predecessors are all supported is the one reported. Any name reported is required and unsupported. |
| Gating.FirstMissingNone | attachments/00_base_code.cpp:104-110 | Nothing is reported exactly when every required name is supported. |
| Gating.FindUnsupported | attachments/00_base_code.cpp:93-99 | The check loop with its early exit returns exactly the first unsupported name in required-list order, or nothing. |
| Gating.GetRequiredExtensions | attachments/00_base_code.cpp:138-151 | The result starts with the window-system extensions, in their order. Its length is that count plus one when validation is on. In that case the debug-utils extension is the last element. |
| Gating.LayerPolicy | attachments/00_base_code.cpp:86-90 | With validation off, creation never fails on a layer. A created instance enables exactly the validation layers when validation is on, and no layers otherwise. |
| Gating.MissingLayerReported | attachments/00_base_code.cpp:92-99 | The outcome is a layer error naming `n` exactly when `n` is the first unsupported required layer, whatever the extensions are. |
| Gating.ExtensionErrorAfterLayers | attachments/00_base_code.cpp:92-110 | The outcome is an extension error naming `n` exactly when every required layer is supported and `n` is the first unsupported required extension. |
| Gating.CreatedIffAllSupported | attachments/00_base_code.cpp:104-117 | An instance is created exactly when every required layer and extension is supported. It then enables exactly the required lists, with counts equal to their lengths, and each enabled name is supported. |
| Diagnostics.DebugCallback | attachments/00_base_code.cpp:153-161 | The callback logs exactly for warning and error severities. It returns `VK_FALSE` for every input. |
| Diagnostics.CallbackLogsWithinRegistration | attachments/00_base_code.cpp:125-127 | Every logged severity is in the registration mask. Verbose messages are the only ones delivered but not logged. Informational messages are the only ones not delivered. |
| Diagnostics.TypeMaskExcludesOnlyAddressBinding | attachments/00_base_code.cpp:128-130 | The type mask holds general, validation and performance messages, and nothing else. |
| Application.HelloTriangleApplication.constructor | attachments/00_base_code.cpp:41-44 | Both handles start null and nothing has been created. |
| Application.HelloTriangleApplication.CreateInstance | attachments/00_base_code.cpp:77-119 | On success the `instance` field holds the create info of `CreateInstanceOutcome`. On failure the error is returned, no instance is created and nothing else changes. |
| Application.HelloTriangleApplication.SetupDebugMessenger | attachments/00_base_code.cpp:121-136 | With validation off, nothing happens. With validation on, a messenger with masks {verbose, warning, error} and {general, performance, validation} is created after the instance. The class invariant guarantees that this instance enables the validation layer and the debug-utils extension. |
| Application.HelloTriangleApplication.InitVulkan | attachments/00_base_code.cpp:56-60 | The instance is created first. The messenger follows only on success and only with validation on. After an error, neither exists. |

## Left out

- Window creation, the event loop and cleanup: these are GLFW calls with no logic to state.
- Writing to `std::cerr`, and the exit code in `main`: output plumbing. The callback keeps only whether it logs.
- The log line's contents (`vk::to_string` of the type flags and the message text): `vk::to_string` is not part of this model.
- The contents of `vk::ApplicationInfo`: constants passed through to the driver.
- The construction of `vk::raii::Instance` and of the messenger: library calls. They are modelled as the create info stored in a field. The driver's own possible failure of these calls is not modelled.
- The loader enumerations: they return property records, and only their names are modelled.
- CStrings.StrCmp: returns only the sign (-1, 0 or 1), where C's `strcmp` may return any value of that sign. The end of a sequence stands for the terminating NUL, because enumerated names contain no NUL.
- CStrings.StrCmp: each Dafny `char` stands for one C `char` byte. The program compares byte strings and the model compares Unicode sequences. Equality, the only result the program reads, is unaffected.
- Flag masks are sets of enum values, not bit patterns. The Vulkan headers that fix the bit values are not part of this model. The message-type enum includes the header's device-address-binding type, which is not registered.
- The `static_cast<uint32_t>` of the list sizes is not modelled, and the counts are naturals. The cast would wrap only on a list of 2^32 names, and no GLFW list comes near that.
- Application.HelloTriangleApplication.CreateInstance: requires that no instance exists yet. Its only caller, `initVulkan`, runs once on a fresh application. Replacing a live instance, and the RAII destruction that would cause, is not modelled.
