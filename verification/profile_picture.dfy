/**
 * The profile-picture step: one of eight default avatars or a custom image (from the gallery or the
 * camera) is chosen, then the signup is completed with that picture, or with none when skipped.
 */
module ProfilePicture {
  import opened Options

  datatype Avatar = Avatar(id: int, source: string, name: string)

  /** The eight default avatars. */
  const DefaultAvatars: seq<Avatar> := [
    Avatar(1, "https://i.pravatar.cc/150?img=1", "Avatar 1"),
    Avatar(2, "https://i.pravatar.cc/150?img=2", "Avatar 2"),
    Avatar(3, "https://i.pravatar.cc/150?img=3", "Avatar 3"),
    Avatar(4, "https://i.pravatar.cc/150?img=4", "Avatar 4"),
    Avatar(5, "https://i.pravatar.cc/150?img=5", "Avatar 5"),
    Avatar(6, "https://i.pravatar.cc/150?img=6", "Avatar 6"),
    Avatar(7, "https://i.pravatar.cc/150?img=7", "Avatar 7"),
    Avatar(8, "https://i.pravatar.cc/150?img=8", "Avatar 8")
  ]

  /** An image returned by the picker or the camera. */
  datatype Asset = Asset(uri: string)

  /** What a gallery or camera launch produced: a result (cancelled or not, with its assets), or an
      exception. */
  datatype PickerResult = Returned(canceled: bool, assets: seq<Asset>) | Threw

  /** How the completion callback ended. */
  datatype CompletionOutcome = Completed | Failed

  const SelectPictureError := "Please select a profile picture"
  const RetryError := "Failed to complete signup. Please try again."
  const PickFailedAlert := "Failed to pick image"
  const PhotoFailedAlert := "Failed to take photo"
  const CameraPermissionAlert := "Camera permission is required to take photos"

  /** The image a picker result supplies: its first asset, when not cancelled and there is one. */
  function PickedAsset(result: PickerResult): (r: Option<Asset>)
    ensures r.Some? <==> result.Returned? && !result.canceled && |result.assets| > 0
    ensures r.Some? ==> r.value == result.assets[0]
  {
    if result.Returned? && !result.canceled && |result.assets| > 0 then Some(result.assets[0]) else None
  }

  /** The picture being shown and submitted: the custom image's uri if there is one, else the avatar's
      source, else none. */
  function CurrentPicture(customImage: Option<Asset>, selectedAvatar: Option<Avatar>): (r: Option<string>)
    ensures r.None? <==> customImage.None? && selectedAvatar.None?
    ensures customImage.Some? ==> r == Some(customImage.value.uri)
    ensures customImage.None? && selectedAvatar.Some? ==> r == Some(selectedAvatar.value.source)
  {
    if customImage.Some? then Some(customImage.value.uri)
    else if selectedAvatar.Some? then Some(selectedAvatar.value.source)
    else None
  }

  /** Choosing a default avatar with no custom image shows that avatar's picture and no other
      avatar's: the eight addresses are distinct. */
  lemma DefaultAvatarShown(i: nat, j: nat)
    requires i < |DefaultAvatars| && j < |DefaultAvatars|
    ensures CurrentPicture(None, Some(DefaultAvatars[i])) == Some(DefaultAvatars[i].source)
    ensures CurrentPicture(None, Some(DefaultAvatars[i])) == Some(DefaultAvatars[j].source) <==> i == j
  {
  }

  /** The default avatars have distinct ids, so at most one is marked as selected. */
  lemma DefaultAvatarIdsDistinct()
    ensures forall i, j :: 0 <= i < j < |DefaultAvatars| ==> DefaultAvatars[i].id != DefaultAvatars[j].id
  {
  }

  /** The complete button is enabled only when not loading and something is chosen. */
  function CompleteEnabled(loading: bool, customImage: Option<Asset>, selectedAvatar: Option<Avatar>): (r: bool)
    ensures r <==> !loading && CurrentPicture(customImage, selectedAvatar).Some?
  {
    !loading && (selectedAvatar.Some? || customImage.Some?)
  }

  /** The step's state. */
  class PictureScreen {
    var selectedAvatar: Option<Avatar>
    var customImage: Option<Asset>
    var loading: bool
    var error: string

    /** At most one of the avatar and the custom image is chosen. */
    ghost predicate Valid()
      reads this
    {
      !(selectedAvatar.Some? && customImage.Some?)
    }

    function Picture(): Option<string>
      reads this
    {
      CurrentPicture(customImage, selectedAvatar)
    }

    constructor ()
      ensures selectedAvatar == None && customImage == None && !loading && error == ""
      ensures Valid()
    {
      selectedAvatar := None;
      customImage := None;
      loading := false;
      error := "";
    }

    method SelectAvatar(avatar: Avatar)
      modifies this
      ensures selectedAvatar == Some(avatar) && customImage == None && error == ""
      ensures loading == old(loading)
      ensures Valid() && Picture() == Some(avatar.source)
    {
      selectedAvatar := Some(avatar);
      customImage := None;
      error := "";
    }

    /** Takes a picker result: a usable image replaces any choice and clears the error; a cancelled or
        empty result changes nothing; an exception changes nothing and raises an alert (the result). */
    method TakeResult(result: PickerResult, failedAlert: string) returns (alert: Option<string>)
      modifies this
      ensures PickedAsset(result).Some? ==>
        customImage == PickedAsset(result) && selectedAvatar == None && error == ""
      ensures PickedAsset(result).None? ==>
        customImage == old(customImage) && selectedAvatar == old(selectedAvatar) && error == old(error)
      ensures alert == if result.Threw? then Some(failedAlert) else None
      ensures loading == old(loading)
      ensures old(Valid()) ==> Valid()
    {
      alert := None;
      match result {
        case Threw =>
          alert := Some(failedAlert);
        case Returned(_, _) =>
          var picked := PickedAsset(result);
          if picked.Some? {
            customImage := picked;
            selectedAvatar := None;
            error := "";
          }
      }
    }

    /** Choose from the gallery. */
    method PickImage(result: PickerResult) returns (alert: Option<string>)
      modifies this
      ensures PickedAsset(result).Some? ==>
        customImage == PickedAsset(result) && selectedAvatar == None && error == ""
      ensures PickedAsset(result).None? ==>
        customImage == old(customImage) && selectedAvatar == old(selectedAvatar) && error == old(error)
      ensures alert == if result.Threw? then Some(PickFailedAlert) else None
      ensures loading == old(loading)
      ensures old(Valid()) ==> Valid()
    {
      alert := TakeResult(result, PickFailedAlert);
    }

    /** Take a photo: without camera permission it alerts and changes nothing; otherwise as a pick. */
    method TakePhoto(permissionGranted: bool, result: PickerResult) returns (alert: Option<string>)
      modifies this
      ensures !permissionGranted ==>
        alert == Some(CameraPermissionAlert) &&
        customImage == old(customImage) && selectedAvatar == old(selectedAvatar) && error == old(error)
      ensures permissionGranted && PickedAsset(result).Some? ==>
        customImage == PickedAsset(result) && selectedAvatar == None && error == ""
      ensures permissionGranted && PickedAsset(result).None? ==>
        customImage == old(customImage) && selectedAvatar == old(selectedAvatar) && error == old(error)
      ensures permissionGranted ==> alert == if result.Threw? then Some(PhotoFailedAlert) else None
      ensures loading == old(loading)
      ensures old(Valid()) ==> Valid()
    {
      if !permissionGranted {
        return Some(CameraPermissionAlert);
      }
      alert := TakeResult(result, PhotoFailedAlert);
    }

    /** Complete: with nothing chosen it only sets the selection error and submits nothing; otherwise it
        submits the current picture (the result), sets the retry error when the callback fails, and
        ends with loading cleared. */
    method HandleComplete(outcome: CompletionOutcome) returns (submitted: Option<string>)
      modifies this
      ensures submitted == Picture()
      ensures selectedAvatar == old(selectedAvatar) && customImage == old(customImage)
      ensures submitted.None? ==> error == SelectPictureError && loading == old(loading)
      ensures submitted.Some? ==> !loading
      ensures submitted.Some? ==> error == if outcome.Failed? then RetryError else old(error)
    {
      if selectedAvatar.None? && customImage.None? {
        error := SelectPictureError;
        return None;
      }
      loading := true;
      submitted := Picture();
      if outcome.Failed? {
        error := RetryError;
      }
      loading := false;
    }

    /** Skip: submits no picture whatever is chosen (the result is the submitted `null`), with the same
        failure handling as completing. */
    method Skip(outcome: CompletionOutcome) returns (submitted: Option<string>)
      modifies this
      ensures submitted == None
      ensures selectedAvatar == old(selectedAvatar) && customImage == old(customImage)
      ensures !loading
      ensures error == if outcome.Failed? then RetryError else old(error)
    {
      loading := true;
      submitted := None;
      if outcome.Failed? {
        error := RetryError;
      }
      loading := false;
    }
  }
}
