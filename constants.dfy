/** The packaged add-on's shared file names and defaults (`rendercue/constants.py`). */
module Constants {
  const MANIFEST_FILENAME: string := "rendercue_manifest.json"
  const STATUS_FILENAME: string := "rendercue_status.json"
  const PAUSE_SIGNAL_FILENAME: string := "rendercue_pause.signal"
  const DEFAULT_PROGRESS_MESSAGE: string := "Rendering..."
}
