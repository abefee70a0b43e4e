/**
 * The few Vulkan values the renderer's decisions depend on, with the numbers
 * the Vulkan headers give them. Every other Vulkan object is an opaque
 * handle: a natural number, 0 standing for VK_NULL_HANDLE / NULL.
 */
module VulkanTypes {
  type Handle = nat
  const NULL_HANDLE: Handle := 0

  // VkResult codes.
  const VK_SUCCESS: int := 0
  const VK_NOT_READY: int := 1
  const VK_TIMEOUT: int := 2
  const VK_SUBOPTIMAL_KHR: int := 1000001003
  const VK_ERROR_DEVICE_LOST: int := -4
  const VK_ERROR_SURFACE_LOST_KHR: int := -1000000000
  const VK_ERROR_OUT_OF_DATE_KHR: int := -1000001004

  // VkFormat and VkColorSpaceKHR values used by the renderer.
  const VK_FORMAT_UNDEFINED: nat := 0
  const VK_FORMAT_R8G8B8A8_UNORM: nat := 37
  const VK_FORMAT_B8G8R8A8_UNORM: nat := 44
  const VK_COLOR_SPACE_SRGB_NONLINEAR_KHR: nat := 0

  // VkPresentModeKHR values.
  const VK_PRESENT_MODE_IMMEDIATE_KHR: nat := 0
  const VK_PRESENT_MODE_MAILBOX_KHR: nat := 1
  const VK_PRESENT_MODE_FIFO_KHR: nat := 2
  const VK_PRESENT_MODE_FIFO_RELAXED_KHR: nat := 3

  // A surface whose current extent width is this value lets the swapchain choose its size.
  const UINT32_MAX: nat := 0xFFFF_FFFF
}
