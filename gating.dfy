/** The capability-gating step of instance creation: which layers and
    extensions are required, and how they are checked, in order, against
    what the loader enumerates. */
module Gating {
  import opened CStrings

  datatype Option<T> = None | Some(value: T)

  /** The single validation layer requested when validation is on. */
  const ValidationLayers: seq<string> := ["VK_LAYER_KHRONOS_validation"]

  /** `vk::EXTDebugUtilsExtensionName`, needed to register the debug callback. */
  const DebugUtilsExtensionName: string := "VK_EXT_debug_utils"

  /** Why instance creation was abandoned: the first unsupported name. */
  datatype CreateError =
    | LayerNotSupported(layer: string)
    | ExtensionNotSupported(extension: string)

  /** The parts of `vk::InstanceCreateInfo` that the gating step decides. */
  datatype InstanceCreateInfo = InstanceCreateInfo(
    enabledLayerCount: nat,
    enabledLayerNames: seq<string>,
    enabledExtensionCount: nat,
    enabledExtensionNames: seq<string>)

  datatype Outcome = Created(info: InstanceCreateInfo) | Failed(error: CreateError)

  /** The name an error reports. */
  function MissingName(e: CreateError): string
  {
    match e
    case LayerNotSupported(l) => l
    case ExtensionNotSupported(x) => x
  }

  /** The text of the exception thrown for a missing name: a fixed prefix
      saying which kind of name, then the name itself. */
  function ErrorMessage(e: CreateError): (m: string)
    ensures |m| > |MissingName(e)|
    ensures m[|m| - |MissingName(e)|..] == MissingName(e)
  {
    match e
    case LayerNotSupported(l) => "Required layer not supported:" + l
    case ExtensionNotSupported(x) => "Required extension not supported:" + x
  }

  /** A layer error and an extension error never read the same, whatever
      names they carry. */
  lemma ErrorMessageTellsKind(layer: string, extension: string)
    ensures ErrorMessage(LayerNotSupported(layer)) != ErrorMessage(ExtensionNotSupported(extension))
  {
    assert ErrorMessage(LayerNotSupported(layer))[9] == 'l';
    assert ErrorMessage(ExtensionNotSupported(extension))[9] == 'e';
  }

  /** The layer list `createInstance` builds: empty, or a copy of the
      validation layers. */
  function RequiredLayers(enableValidation: bool): (layers: seq<string>)
    ensures layers != [] <==> enableValidation
    ensures |layers| <= |ValidationLayers|
    ensures forall k :: 0 <= k < |layers| ==> layers[k] == ValidationLayers[k]
  {
    if enableValidation then ValidationLayers else []
  }

  /** The extension list `getRequiredExtensions` returns. */
  function RequiredExtensions(windowExtensions: seq<string>, enableValidation: bool): (extensions: seq<string>)
    ensures |extensions| == |windowExtensions| + (if enableValidation then 1 else 0)
    ensures extensions[..|windowExtensions|] == windowExtensions
    ensures enableValidation ==> extensions[|extensions| - 1] == DebugUtilsExtensionName
  {
    windowExtensions + (if enableValidation then [DebugUtilsExtensionName] else [])
  }

  /** Position of the first required name absent from `supported`, or
      `|required|` when every name is present. */
  function FirstMissingIndex(required: seq<string>, supported: seq<string>): (i: nat)
    ensures i <= |required|
    ensures forall j :: 0 <= j < i ==> required[j] in supported
    ensures i < |required| ==> required[i] !in supported
  {
    if required == [] then 0
    else if required[0] !in supported then 0
    else 1 + FirstMissingIndex(required[1..], supported)
  }

  /** The first required name absent from `supported`, in required-list order. */
  function FirstMissing(required: seq<string>, supported: seq<string>): (missing: Option<string>)
    ensures missing.None? <==> forall k :: 0 <= k < |required| ==> required[k] in supported
    ensures missing.Some? ==> missing.value in required && missing.value !in supported
    ensures missing.Some? ==> IsFirstMissing(required, supported, missing.value)
  {
    var i := FirstMissingIndex(required, supported);
    if i < |required| then Some(required[i]) else None
  }

  /** `name` occurs in `required` at a position where it is unsupported and
      every name before it is supported. */
  ghost predicate IsFirstMissing(required: seq<string>, supported: seq<string>, name: string)
  {
    exists i :: 0 <= i < |required| && required[i] == name && name !in supported
      && forall j :: 0 <= j < i ==> required[j] in supported
  }

  /** A missing name is the first one exactly when every name before it is
      present: the first-missing position is unique. */
  lemma FirstMissingIsFirst(required: seq<string>, supported: seq<string>, i: nat)
    requires i < |required|
    ensures FirstMissing(required, supported) == Some(required[i]) <==
      (required[i] !in supported && forall j :: 0 <= j < i ==> required[j] in supported)
    ensures FirstMissing(required, supported).Some? ==>
      FirstMissing(required, supported).value !in supported &&
      FirstMissing(required, supported).value in required
  {
  }

  /** A name that is the first missing one is the one reported. */
  lemma FirstMissingNamesFirst(required: seq<string>, supported: seq<string>, name: string)
    requires IsFirstMissing(required, supported, name)
    ensures FirstMissing(required, supported) == Some(name)
  {
    var i :| 0 <= i < |required| && required[i] == name && name !in supported
             && forall j :: 0 <= j < i ==> required[j] in supported;
    FirstMissingIsFirst(required, supported, i);
  }

  /** Nothing is missing exactly when every required name is supported. */
  lemma FirstMissingNone(required: seq<string>, supported: seq<string>)
    ensures FirstMissing(required, supported) == None <==>
      forall k :: 0 <= k < |required| ==> required[k] in supported
  {
  }

  /** The loop of `createInstance` over one required list: the first name
      that no enumerated property matches exactly is returned at once. */
  method FindUnsupported(required: seq<string>, supported: seq<string>) returns (missing: Option<string>)
    ensures missing == FirstMissing(required, supported)
  {
    for i := 0 to |required|
      invariant forall j :: 0 <= j < i ==> required[j] in supported
    {
      if NoneOf(supported, required[i]) {
        return Some(required[i]);
      }
    }
    return None;
  }

  /** `getRequiredExtensions`: the window system's extensions in their own
      order, then the debug-utils extension last when validation is on. */
  method GetRequiredExtensions(windowExtensions: seq<string>, enableValidation: bool)
    returns (extensions: seq<string>)
    ensures extensions == RequiredExtensions(windowExtensions, enableValidation)
    ensures |extensions| == |windowExtensions| + (if enableValidation then 1 else 0)
    ensures extensions[..|windowExtensions|] == windowExtensions
    ensures enableValidation ==> extensions[|extensions| - 1] == DebugUtilsExtensionName
  {
    extensions := windowExtensions;
    if enableValidation {
      extensions := extensions + [DebugUtilsExtensionName];
    }
  }

  /** What `createInstance` decides: layers are checked first, then
      extensions; the first missing name aborts; otherwise the create info
      carries both lists and their lengths. */
  function CreateInstanceOutcome(enableValidation: bool, windowExtensions: seq<string>,
                                 layerProperties: seq<string>, extensionProperties: seq<string>): (o: Outcome)
    ensures o.Failed? && o.error.LayerNotSupported? ==>
      o.error.layer in RequiredLayers(enableValidation) && o.error.layer !in layerProperties
    ensures o.Failed? && o.error.ExtensionNotSupported? ==>
      && (forall k :: 0 <= k < |RequiredLayers(enableValidation)| ==> RequiredLayers(enableValidation)[k] in layerProperties)
      && o.error.extension in RequiredExtensions(windowExtensions, enableValidation)
      && o.error.extension !in extensionProperties
    ensures o.Created? ==>
      && o.info.enabledLayerNames == RequiredLayers(enableValidation)
      && o.info.enabledExtensionNames == RequiredExtensions(windowExtensions, enableValidation)
      && o.info.enabledLayerCount == |o.info.enabledLayerNames|
      && o.info.enabledExtensionCount == |o.info.enabledExtensionNames|
  {
    var layers := RequiredLayers(enableValidation);
    match FirstMissing(layers, layerProperties)
    case Some(l) => Failed(LayerNotSupported(l))
    case None =>
      var extensions := RequiredExtensions(windowExtensions, enableValidation);
      match FirstMissing(extensions, extensionProperties)
      case Some(x) => Failed(ExtensionNotSupported(x))
      case None => Created(InstanceCreateInfo(|layers|, layers, |extensions|, extensions))
  }

  /** With validation off no layer is required, so no layer error can arise;
      with it on, exactly the validation layers are required, in order. */
  lemma LayerPolicy(enableValidation: bool, windowExtensions: seq<string>,
                    layerProperties: seq<string>, extensionProperties: seq<string>)
    ensures var o := CreateInstanceOutcome(enableValidation, windowExtensions, layerProperties, extensionProperties);
      !enableValidation && o.Failed? ==> o.error.ExtensionNotSupported?
    ensures var o := CreateInstanceOutcome(enableValidation, windowExtensions, layerProperties, extensionProperties);
      o.Created? ==> o.info.enabledLayerNames == (if enableValidation then ValidationLayers else [])
  {
  }

  /** A missing layer is reported as the first missing layer in required
      order, whatever the extensions; and conversely. */
  lemma MissingLayerReported(enableValidation: bool, windowExtensions: seq<string>,
                             layerProperties: seq<string>, extensionProperties: seq<string>, name: string)
    ensures CreateInstanceOutcome(enableValidation, windowExtensions, layerProperties, extensionProperties)
              == Failed(LayerNotSupported(name))
      <==> IsFirstMissing(RequiredLayers(enableValidation), layerProperties, name)
  {
    var layers := RequiredLayers(enableValidation);
    if IsFirstMissing(layers, layerProperties, name) {
      FirstMissingNamesFirst(layers, layerProperties, name);
    }
  }

  /** Layers are checked before extensions: an extension error means every
      required layer was present, and it names the first missing extension. */
  lemma ExtensionErrorAfterLayers(enableValidation: bool, windowExtensions: seq<string>,
                                  layerProperties: seq<string>, extensionProperties: seq<string>, name: string)
    ensures CreateInstanceOutcome(enableValidation, windowExtensions, layerProperties, extensionProperties)
              == Failed(ExtensionNotSupported(name))
      <==> (forall k :: 0 <= k < |RequiredLayers(enableValidation)| ==>
              RequiredLayers(enableValidation)[k] in layerProperties)
           && IsFirstMissing(RequiredExtensions(windowExtensions, enableValidation), extensionProperties, name)
  {
    var layers := RequiredLayers(enableValidation);
    var extensions := RequiredExtensions(windowExtensions, enableValidation);
    FirstMissingNone(layers, layerProperties);
    if IsFirstMissing(extensions, extensionProperties, name) {
      FirstMissingNamesFirst(extensions, extensionProperties, name);
    }
  }

  /** An instance is created exactly when every required layer and every
      required extension is supported; its create info then enables exactly
      the required lists, with matching counts, each name supported. */
  lemma CreatedIffAllSupported(enableValidation: bool, windowExtensions: seq<string>,
                               layerProperties: seq<string>, extensionProperties: seq<string>)
    ensures CreateInstanceOutcome(enableValidation, windowExtensions, layerProperties, extensionProperties).Created?
      <==> (forall k :: 0 <= k < |RequiredLayers(enableValidation)| ==>
              RequiredLayers(enableValidation)[k] in layerProperties)
           && (forall k :: 0 <= k < |RequiredExtensions(windowExtensions, enableValidation)| ==>
              RequiredExtensions(windowExtensions, enableValidation)[k] in extensionProperties)
    ensures CreateInstanceOutcome(enableValidation, windowExtensions, layerProperties, extensionProperties).Created? ==>
      var info := CreateInstanceOutcome(enableValidation, windowExtensions, layerProperties, extensionProperties).info;
      && info.enabledLayerNames == RequiredLayers(enableValidation)
      && info.enabledExtensionNames == RequiredExtensions(windowExtensions, enableValidation)
      && info.enabledLayerCount == |info.enabledLayerNames|
      && info.enabledExtensionCount == |info.enabledExtensionNames|
      && (forall k :: 0 <= k < |info.enabledLayerNames| ==> info.enabledLayerNames[k] in layerProperties)
      && (forall k :: 0 <= k < |info.enabledExtensionNames| ==> info.enabledExtensionNames[k] in extensionProperties)
  {
    FirstMissingNone(RequiredLayers(enableValidation), layerProperties);
    FirstMissingNone(RequiredExtensions(windowExtensions, enableValidation), extensionProperties);
  }
}
