/**
 * Framebuffer creation and destruction (renderer/vulkan/vulkan_framebuffer.c).
 * The framebuffer keeps its own copy of the caller's attachment views, so the
 * caller's array may be released after create. vkCreateFramebuffer and
 * vkDestroyFramebuffer are outside the model: the new handle is an input and
 * the create info is returned.
 */
module Framebuffers {
  import opened VulkanTypes

  // sizeof(VkImageView): a 64-bit non-dispatchable handle.
  const IMAGE_VIEW_BYTES: nat := 8

  /** The render pass struct the framebuffer points at. */
  class RenderPass {
    var handle: Handle

    constructor (handle: Handle)
      ensures this.handle == handle
    {
      this.handle := handle;
    }
  }

  /** The parameters passed to vkCreateFramebuffer. */
  datatype FramebufferCreateInfo = FramebufferCreateInfo(
    renderPass: Handle,
    attachments: seq<Handle>,
    width: nat,
    height: nat,
    layers: nat)

  class Framebuffer {
    var handle: Handle
    var attachments: array?<Handle>
    var attachmentCount: nat
    var renderpass: RenderPass?

    /** The attachment copy, when there is one, holds exactly `attachmentCount` views. */
    ghost predicate Valid()
      reads this
    {
      attachments != null ==> attachments.Length == attachmentCount
    }

    /** Bytes the framebuffer holds for its attachment copy (the renderer memory tag). */
    function HeldBytes(): (bytes: nat)
      reads this
      ensures attachments == null ==> bytes == 0
    {
      if attachments != null then IMAGE_VIEW_BYTES * attachmentCount else 0
    }

    /** A zeroed struct. */
    constructor ()
      ensures Valid() && attachments == null && renderpass == null
      ensures handle == NULL_HANDLE && attachmentCount == 0 && HeldBytes() == 0
    {
      handle, attachments, attachmentCount, renderpass := NULL_HANDLE, null, 0, null;
    }

    /**
     * `vulkan_framebuffer_create`: copies the first `count` views of `views`
     * into fresh storage, records the render pass and the count, and returns
     * the create info (the given size, one layer) and the bytes allocated for
     * the copy.
     */
    method Create(renderpass: RenderPass, width: nat, height: nat, count: nat, views: array<Handle>, driverHandle: Handle)
      returns (info: FramebufferCreateInfo, allocatedBytes: nat)
      requires count <= views.Length
      modifies this
      ensures Valid()
      ensures attachments != null && fresh(attachments)
      ensures attachments[..] == views[..count]
      ensures attachmentCount == count && this.renderpass == renderpass && handle == driverHandle
      ensures info == FramebufferCreateInfo(renderpass.handle, views[..count], width, height, 1)
      ensures allocatedBytes == IMAGE_VIEW_BYTES * count == HeldBytes()
    {
      var copy := new Handle[count];
      var i := 0;
      while i < count
        invariant 0 <= i <= count
        invariant forall k :: 0 <= k < i ==> copy[k] == views[k]
      {
        copy[i] := views[i];
        i := i + 1;
      }
      assert copy[..] == views[..count];
      attachments := copy;
      allocatedBytes := IMAGE_VIEW_BYTES * count;
      this.renderpass := renderpass;
      attachmentCount := count;
      info := FramebufferCreateInfo(renderpass.handle, copy[..], width, height, 1);
      handle := driverHandle;
    }

    /**
     * `vulkan_framebuffer_destroy`: hands the handle back to the driver, frees
     * the attachment copy when there is one, and resets every field.
     */
    method Destroy() returns (destroyed: Handle, freedBytes: nat)
      modifies this
      ensures destroyed == old(handle)
      ensures freedBytes == old(HeldBytes())
      ensures old(attachments) == null ==> freedBytes == 0
      ensures Valid() && HeldBytes() == 0
      ensures attachments == null && handle == NULL_HANDLE && attachmentCount == 0 && renderpass == null
    {
      destroyed := handle;
      freedBytes := 0;
      if attachments != null {
        freedBytes := IMAGE_VIEW_BYTES * attachmentCount;
        attachments := null;
      }
      handle := NULL_HANDLE;
      attachmentCount := 0;
      renderpass := null;
    }
  }
}
