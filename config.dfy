/** The constants of config.py that the core reads. */
module Config {

  /** TEMP_DIR: where staged uploads and produced outputs live. */
  const TempDir: string := "temp_files"

  /** SUPPORTED_VIDEO_FORMATS, in the order the source lists them. */
  const VideoFormats: seq<string> := [".mp4", ".avi", ".mov", ".mkv", ".wmv"]

  /** SUPPORTED_AUDIO_FORMATS, in the order the source lists them. */
  const AudioFormats: seq<string> := [".mp3", ".wav", ".aac", ".m4a"]

  /** The two values the bot stores under 'file_type': 'video' and 'audio'. */
  datatype FileKind = Video | Audio
}
