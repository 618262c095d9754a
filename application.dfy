/** `HelloTriangleApplication`'s Vulkan initialisation: the instance and the
    debug messenger are fields assigned in sequence by `initVulkan`. */
module Application {
  import opened Gating
  import opened Diagnostics

  /** The handles the application creates, in creation order. */
  datatype Handle = InstanceHandle | DebugMessengerHandle

  class HelloTriangleApplication {
    /** The build-mode switch, passed in explicitly. */
    const enableValidationLayers: bool

    /** `instance`: `None` stands for the null RAII handle. */
    var instance: Option<InstanceCreateInfo>
    /** `debugMessenger`: `None` stands for the null RAII handle. */
    var debugMessenger: Option<MessengerCreateInfo>
    /** Every handle created so far, oldest first. */
    ghost var created: seq<Handle>

    /** A messenger exists only when validation is on and only after the
        instance it is attached to, with the fixed registration masks; with
        validation on, the instance enables the validation layer and the
        debug-utils extension the messenger needs. */
    ghost predicate Valid()
      reads this
    {
      && (instance.Some? <==> InstanceHandle in created)
      && (debugMessenger.Some? <==> DebugMessengerHandle in created)
      && (debugMessenger.Some? ==>
            && enableValidationLayers
            && debugMessenger == Some(DebugMessengerInfo)
            && |created| == 2 && created[0] == InstanceHandle && created[1] == DebugMessengerHandle)
      && (debugMessenger.None? && instance.Some? ==> created == [InstanceHandle])
      && (instance.None? ==> created == [])
      && (instance.Some? && enableValidationLayers ==>
            && instance.value.enabledLayerNames == ValidationLayers
            && DebugUtilsExtensionName in instance.value.enabledExtensionNames)
    }

    constructor (enableValidationLayers: bool)
      ensures Valid()
      ensures this.enableValidationLayers == enableValidationLayers
      ensures instance == None && debugMessenger == None && created == []
    {
      this.enableValidationLayers := enableValidationLayers;
      instance := None;
      debugMessenger := None;
      created := [];
    }

    /** `createInstance`: gate the required layers, then the required
        extensions, against the enumerated properties; the first missing
        name is reported and no instance is created. */
    method CreateInstance(windowExtensions: seq<string>, layerProperties: seq<string>,
                          extensionProperties: seq<string>)
      returns (error: Option<CreateError>)
      requires Valid() && instance.None?
      modifies this
      ensures Valid() && debugMessenger == old(debugMessenger)
      ensures match CreateInstanceOutcome(enableValidationLayers, windowExtensions, layerProperties, extensionProperties)
        case Created(info) => error == None && instance == Some(info) && created == old(created) + [InstanceHandle]
        case Failed(e) => error == Some(e) && instance == None && created == old(created)
    {
      var requiredLayers: seq<string> := [];
      if enableValidationLayers {
        requiredLayers := ValidationLayers;
      }
      var missingLayer := FindUnsupported(requiredLayers, layerProperties);
      if missingLayer.Some? {
        return Some(LayerNotSupported(missingLayer.value));
      }
      var requiredExtensions := GetRequiredExtensions(windowExtensions, enableValidationLayers);
      var missingExtension := FindUnsupported(requiredExtensions, extensionProperties);
      if missingExtension.Some? {
        return Some(ExtensionNotSupported(missingExtension.value));
      }
      instance := Some(InstanceCreateInfo(|requiredLayers|, requiredLayers,
                                          |requiredExtensions|, requiredExtensions));
      created := created + [InstanceHandle];
      error := None;
    }

    /** `setupDebugMessenger`: nothing when validation is off; otherwise a
        messenger with the fixed masks, created from the instance. */
    method SetupDebugMessenger()
      requires Valid() && debugMessenger.None?
      requires enableValidationLayers ==> instance.Some?
      modifies this
      ensures Valid() && instance == old(instance)
      ensures debugMessenger == if enableValidationLayers then Some(DebugMessengerInfo) else None
      ensures created == old(created) + (if enableValidationLayers then [DebugMessengerHandle] else [])
    {
      if !enableValidationLayers {
        return;
      }
      var severityFlags := MessengerSeverityMask;
      var messageTypeFlags := MessengerTypeMask;
      debugMessenger := Some(MessengerCreateInfo(severityFlags, messageTypeFlags));
      created := created + [DebugMessengerHandle];
    }

    /** `initVulkan`: the instance first, then the messenger; an error from
        the instance step stops initialisation before any messenger exists. */
    method InitVulkan(windowExtensions: seq<string>, layerProperties: seq<string>,
                      extensionProperties: seq<string>)
      returns (error: Option<CreateError>)
      requires Valid() && instance.None? && debugMessenger.None?
      modifies this
      ensures Valid()
      ensures match CreateInstanceOutcome(enableValidationLayers, windowExtensions, layerProperties, extensionProperties)
        case Created(info) =>
          && error == None && instance == Some(info)
          && debugMessenger == (if enableValidationLayers then Some(DebugMessengerInfo) else None)
          && created == [InstanceHandle] + (if enableValidationLayers then [DebugMessengerHandle] else [])
        case Failed(e) =>
          error == Some(e) && instance == None && debugMessenger == None && created == []
    {
      error := CreateInstance(windowExtensions, layerProperties, extensionProperties);
      if error.Some? {
        return;
      }
      SetupDebugMessenger();
    }
  }
}
