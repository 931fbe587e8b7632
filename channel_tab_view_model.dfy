/** Navigation after creating a channel: WhatsAppClone/Screens/Channel/ViewModel/ChannelTabViewModel.swift. */
module ChannelTab {

  import opened Wrappers
  import opened ChannelModel

  class ChannelTabViewModel {
    var navigateToChatRoom: bool
    var showChatPartnerPickerView: bool
    var newChannel: Option<ChannelItem>

    constructor ()
      ensures !navigateToChatRoom && !showChatPartnerPickerView && newChannel.None?
    {
      navigateToChatRoom := false;
      showChatPartnerPickerView := false;
      newChannel := None;
    }

    /**
     * `onNewChannelCreation`: closes the partner picker and opens the new
     * channel's chat room. The new state depends only on `channel`, so
     * calling it again with the same channel changes nothing.
     */
    method OnNewChannelCreation(channel: ChannelItem)
      modifies this
      ensures !showChatPartnerPickerView && newChannel == Some(channel) && navigateToChatRoom
    {
      showChatPartnerPickerView := false;
      newChannel := Some(channel);
      navigateToChatRoom := true;
    }
  }

  /** Calling `onNewChannelCreation` twice with one channel leaves the state of a single call. */
  method OnNewChannelCreationIdempotent(vm: ChannelTabViewModel, channel: ChannelItem)
    modifies vm
    ensures !vm.showChatPartnerPickerView && vm.newChannel == Some(channel) && vm.navigateToChatRoom
  {
    vm.OnNewChannelCreation(channel);
    var once := (vm.showChatPartnerPickerView, vm.newChannel, vm.navigateToChatRoom);
    vm.OnNewChannelCreation(channel);
    assert (vm.showChatPartnerPickerView, vm.newChannel, vm.navigateToChatRoom) == once;
  }
}
