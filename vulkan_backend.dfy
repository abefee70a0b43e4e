/**
 * Initialization of the Vulkan backend (renderer/vulkan/vulkan_backend.c):
 * the required instance extensions, gathered in a dynamic array, and the
 * check that every required validation layer is available; and the backend's
 * frame functions, which are stubs. The build configuration (`_DEBUG`) and
 * the platform are parameters; the layers the driver lists and the instance
 * it creates are inputs.
 */
module VulkanBackend {
  import opened Common
  import opened VulkanTypes
  import Containers

  datatype Platform = Linux | Windows

  const VK_KHR_SURFACE_EXTENSION_NAME: string := "VK_KHR_surface"
  const VK_EXT_DEBUG_UTILS_EXTENSION_NAME: string := "VK_EXT_debug_utils"
  const VALIDATION_LAYER_NAME: string := "VK_LAYER_KHRONOS_validation"
  const ENGINE_NAME: string := "Pegasus Engine"
  // sizeof(const char*): the stride of the name arrays.
  const ADDRESS_BYTES: nat := 8

  /** VK_MAKE_VERSION / VK_MAKE_API_VERSION with variant 0. */
  function MakeVersion(major: nat, minor: nat, patch: nat): nat
  {
    major * 0x40_0000 + minor * 0x1000 + patch
  }

  const API_VERSION_1_2: nat := MakeVersion(1, 2, 0)

  /** The surface extension each platform layer asks for. */
  function PlatformExtensions(platform: Platform): (r: seq<string>)
    ensures |r| == 1 && r[0] != VK_KHR_SURFACE_EXTENSION_NAME && r[0] != VK_EXT_DEBUG_UTILS_EXTENSION_NAME
    ensures r == ["VK_KHR_xcb_surface"] <==> platform == Linux
  {
    match platform
    case Linux => ["VK_KHR_xcb_surface"]
    case Windows => ["VK_KHR_win32_surface"]
  }

  /**
   * The instance extensions: the generic surface extension, then the
   * platform's, then, in debug builds only, debug utils last.
   */
  function RequiredExtensions(platform: Platform, debug: bool): (r: seq<string>)
    ensures |r| == 1 + |PlatformExtensions(platform)| + (if debug then 1 else 0)
    ensures r[0] == VK_KHR_SURFACE_EXTENSION_NAME
    ensures r[1..1 + |PlatformExtensions(platform)|] == PlatformExtensions(platform)
    ensures debug ==> r[|r| - 1] == VK_EXT_DEBUG_UTILS_EXTENSION_NAME
    ensures VK_EXT_DEBUG_UTILS_EXTENSION_NAME in r <==> debug
  {
    [VK_KHR_SURFACE_EXTENSION_NAME] + PlatformExtensions(platform)
      + (if debug then [VK_EXT_DEBUG_UTILS_EXTENSION_NAME] else [])
  }

  /** The validation layers required: the Khronos layer in debug builds, none otherwise. */
  function RequiredLayers(debug: bool): (r: seq<string>)
    ensures debug ==> r == [VALIDATION_LAYER_NAME]
    ensures !debug ==> r == []
  {
    if debug then [VALIDATION_LAYER_NAME] else []
  }

  /** Every required layer is among the available ones (compared as strings). */
  predicate AllPresent(required: seq<string>, available: seq<string>)
  {
    forall i :: 0 <= i < |required| ==> required[i] in available
  }

  /** The parameters passed to vkCreateInstance. */
  datatype InstanceCreateInfo = InstanceCreateInfo(
    applicationName: string,
    applicationVersion: nat,
    engineName: string,
    engineVersion: nat,
    apiVersion: nat,
    enabledExtensionNames: seq<string>,
    enabledExtensionCount: nat,
    enabledLayerNames: seq<string>,
    enabledLayerCount: nat)

  /** `platform_get_required_extension_names`: pushes the platform's extensions onto `list`. */
  method PushPlatformExtensions(platform: Platform, list: Containers.DArray<string>)
    requires list.Valid()
    modifies list, list.header, list.data
    ensures list.Valid()
    ensures list.Contents() == old(list.Contents()) + PlatformExtensions(platform)
    ensures list.header != old(list.header) ==> fresh(list.header)
    ensures list.data != old(list.data) ==> fresh(list.data)
  {
    match platform
    case Linux => list.Push("VK_KHR_xcb_surface");
    case Windows => list.Push("VK_KHR_win32_surface");
  }

  /** The required-extension darray, built one push at a time. */
  method BuildRequiredExtensions(platform: Platform, debug: bool) returns (list: Containers.DArray<string>)
    ensures fresh(list) && list.Valid()
    ensures list.Contents() == RequiredExtensions(platform, debug)
  {
    list := Containers.NewDefault(ADDRESS_BYTES, "");
    list.Push(VK_KHR_SURFACE_EXTENSION_NAME);
    PushPlatformExtensions(platform, list);
    if debug {
      list.Push(VK_EXT_DEBUG_UTILS_EXTENSION_NAME);
    }
  }

  /** The debug build's required-layer darray: the Khronos validation layer. */
  method BuildRequiredLayers() returns (names: seq<string>)
    ensures names == RequiredLayers(true)
  {
    var list := Containers.NewDefault(ADDRESS_BYTES, "");
    list.Push(VALIDATION_LAYER_NAME);
    names := list.Contents();
  }

  /**
   * The nested search of initialize: the index of the first required layer
   * that no available layer matches, or None when every one is present.
   */
  method FindMissingLayer(required: seq<string>, available: seq<string>) returns (missing: Option<nat>)
    ensures missing.None? <==> AllPresent(required, available)
    ensures missing.Some? ==>
      && missing.value < |required|
      && required[missing.value] !in available
      && AllPresent(required[..missing.value], available)
  {
    var i := 0;
    while i < |required|
      invariant 0 <= i <= |required|
      invariant AllPresent(required[..i], available)
    {
      var found := false;
      var j := 0;
      while j < |available|
        invariant 0 <= j <= |available|
        invariant !found ==> required[i] !in available[..j]
        invariant found ==> required[i] in available
      {
        if required[i] == available[j] {
          found := true;
          break;
        }
        j := j + 1;
      }
      if !found {
        assert available[..j] == available;
        return Some(i);
      }
      assert required[..i + 1] == required[..i] + [required[i]];
      i := i + 1;
    }
    assert required[..i] == required;
    missing := None;
  }

  /** The backend's static context. */
  class BackendContext {
    var allocator: Handle
    var instance: Handle

    constructor ()
      ensures allocator == NULL_HANDLE && instance == NULL_HANDLE
    {
      allocator, instance := NULL_HANDLE, NULL_HANDLE;
    }

    /**
     * `vulkan_renderer_backend_initialize`: fails at the first required
     * layer missing from `availableLayers`; otherwise creates the instance
     * (`driverInstance`) from the returned create info.
     */
    method Initialize(platform: Platform, debug: bool, applicationName: string,
                      availableLayers: seq<string>, driverInstance: Handle)
      returns (ok: bool, info: Option<InstanceCreateInfo>)
      modifies this
      ensures ok <==> AllPresent(RequiredLayers(debug), availableLayers)
      ensures !debug ==> ok
      ensures ok ==> info == Some(InstanceCreateInfo(
        applicationName, MakeVersion(1, 0, 0), ENGINE_NAME, MakeVersion(1, 0, 0), API_VERSION_1_2,
        RequiredExtensions(platform, debug), |RequiredExtensions(platform, debug)|,
        RequiredLayers(debug), |RequiredLayers(debug)|))
      ensures ok ==> instance == driverInstance
      ensures !ok ==> info == None && instance == old(instance)
      ensures allocator == NULL_HANDLE
    {
      allocator := NULL_HANDLE;
      var extensions := BuildRequiredExtensions(platform, debug);
      var extensionCount := extensions.Length();
      var extensionNames := extensions.Contents();

      var layers: seq<string> := [];
      if debug {
        layers := BuildRequiredLayers();
        var missing := FindMissingLayer(layers, availableLayers);
        if missing.Some? {
          return false, None;
        }
      }

      info := Some(InstanceCreateInfo(
        applicationName, MakeVersion(1, 0, 0), ENGINE_NAME, MakeVersion(1, 0, 0), API_VERSION_1_2,
        extensionNames, extensionCount, layers, |layers|));
      instance := driverInstance;
      ok := true;
    }

    /** `vulkan_renderer_backend_shutdown`: nothing. */
    method Shutdown()
      modifies this
      ensures unchanged(this)
    {
    }

    /** `vulkan_renderer_backend_on_resized`: nothing. */
    method OnResized(width: nat, height: nat)
      modifies this
      ensures unchanged(this)
    {
    }
  }

  /** `vulkan_renderer_backend_begin_frame`: a stub that always succeeds. */
  method BeginFrame() returns (ok: bool)
    ensures ok
  {
    ok := true;
  }

  /** `vulkan_renderer_backend_end_frame`: a stub that always succeeds. */
  method EndFrame() returns (ok: bool)
    ensures ok
  {
    ok := true;
  }
}
