/** The settings panel (Settings.tsx): the camera list fetched from the
    server, the selected camera, the recognition threshold slider, the reset
    button and the save handler that stores the selection for the live feed. */
module Settings {
  import opened Wrappers
  import opened Server
  import opened Toasts

  /** The threshold the panel starts with and resets to. */
  const DefaultThreshold: int := 80

  /** The local-storage key the live feed reads the camera from. */
  const SelectedCameraKey: string := "selectedCamera"

  /** `id` is the id of a camera in the list. */
  predicate Listed(cams: seq<Camera>, id: string) {
    exists i :: 0 <= i < |cams| && cams[i].id == id
  }

  /** The selection after a fetch returns `cams`: the first camera when
      there is one, otherwise the selection is left as it was. */
  function FetchedSelection(cams: seq<Camera>, current: string): (r: string)
    ensures |cams| > 0 ==> Listed(cams, r) && r == cams[0].id
    ensures |cams| == 0 ==> r == current
  {
    if |cams| > 0 then cams[0].id else current
  }

  /** `cameras[0]?.id || ''`: the first camera, or nothing when the list is
      empty. */
  function ResetSelection(cams: seq<Camera>): (r: string)
    ensures Listed(cams, r) || (|cams| == 0 && r == "")
    ensures |cams| > 0 ==> r == cams[0].id
    ensures |cams| == 0 ==> r == ""
  {
    if |cams| > 0 && cams[0].id != "" then cams[0].id else ""
  }

  /** Reset goes back to the choice a fetch of the same list makes, and with
      no cameras to no selection at all. */
  lemma ResetMatchesFetch(cams: seq<Camera>, current: string)
    ensures |cams| > 0 ==> ResetSelection(cams) == FetchedSelection(cams, current)
    ensures |cams| == 0 ==> ResetSelection(cams) == ""
  {
  }

  /** The panel's state; `storage` is the browser's local storage. */
  class SettingsPanel {
    var confidenceThreshold: int
    var cameras: seq<Camera>
    var selectedCamera: string
    var isLoading: bool
    var storage: map<string, string>

    /** The initial state over the local storage as found. */
    constructor (stored: map<string, string>)
      ensures confidenceThreshold == DefaultThreshold && cameras == [] && selectedCamera == ""
      ensures !isLoading && storage == stored
    {
      confidenceThreshold := DefaultThreshold;
      cameras := [];
      selectedCamera := "";
      isLoading := false;
      storage := stored;
    }

    /** `fetchCameras` once `getCameras` settles: the list is stored and the
        first camera selected; a failure (`None`) changes nothing and reports
        an error. */
    method FetchCameras(result: Option<seq<Camera>>) returns (toast: Option<Toast>)
      modifies this
      ensures result.Some? ==>
        cameras == result.value && selectedCamera == FetchedSelection(result.value, old(selectedCamera)) &&
        toast.None?
      ensures result.None? ==>
        cameras == old(cameras) && selectedCamera == old(selectedCamera) &&
        toast == Some(Toast("Error", "Failed to fetch available cameras.", true))
      ensures confidenceThreshold == old(confidenceThreshold) && isLoading == old(isLoading)
      ensures storage == old(storage)
    {
      match result
      case Some(data) =>
        cameras := data;
        if |data| > 0 {
          selectedCamera := data[0].id;
        }
        toast := None;
      case None =>
        toast := Some(Toast("Error", "Failed to fetch available cameras.", true));
    }

    /** The camera picker's `onValueChange`. */
    method SelectCamera(id: string)
      modifies this
      ensures selectedCamera == id
      ensures cameras == old(cameras) && confidenceThreshold == old(confidenceThreshold)
      ensures isLoading == old(isLoading) && storage == old(storage)
    {
      selectedCamera := id;
    }

    /** `handleConfidenceChange`: the single-thumb slider reports one value. */
    method HandleConfidenceChange(values: seq<int>)
      requires |values| > 0
      modifies this
      ensures confidenceThreshold == values[0]
      ensures cameras == old(cameras) && selectedCamera == old(selectedCamera)
      ensures isLoading == old(isLoading) && storage == old(storage)
    {
      confidenceThreshold := values[0];
    }

    /** "Reset to Defaults": threshold 80 and the first camera selected. */
    method Reset() returns (toast: Toast)
      modifies this
      ensures confidenceThreshold == DefaultThreshold
      ensures selectedCamera == ResetSelection(cameras)
      ensures cameras == old(cameras) && isLoading == old(isLoading) && storage == old(storage)
      ensures toast == Toast("Settings Reset", "Settings have been reset to default values.", false)
    {
      confidenceThreshold := DefaultThreshold;
      selectedCamera := ResetSelection(cameras);
      toast := Toast("Settings Reset", "Settings have been reset to default values.", false);
    }

    /** `handleSubmit` up to its delay: the loading flag is raised and the
        selection of this render is what will be saved. */
    method BeginSave() returns (captured: string)
      modifies this
      ensures isLoading && captured == selectedCamera
      ensures confidenceThreshold == old(confidenceThreshold) && cameras == old(cameras)
      ensures selectedCamera == old(selectedCamera) && storage == old(storage)
    {
      isLoading := true;
      captured := selectedCamera;
    }

    /** `handleSubmit` after its delay: the loading flag drops and the captured
        selection is written under "selectedCamera"; no other key changes. */
    method FinishSave(captured: string) returns (toast: Toast)
      modifies this
      ensures !isLoading
      ensures storage == old(storage)[SelectedCameraKey := captured]
      ensures SelectedCameraKey in storage && storage[SelectedCameraKey] == captured
      ensures forall k :: k in old(storage) && k != SelectedCameraKey ==> k in storage && storage[k] == old(storage)[k]
      ensures confidenceThreshold == old(confidenceThreshold) && cameras == old(cameras)
      ensures selectedCamera == old(selectedCamera)
      ensures toast == Toast("Settings Saved", "Your settings have been successfully updated.", false)
    {
      isLoading := false;
      toast := Toast("Settings Saved", "Your settings have been successfully updated.", false);
      storage := storage[SelectedCameraKey := captured];
    }
  }
}
