/**
 * The files the data-set readers open: binary files by path, and text files
 * by path as the lines std::getline returns. A path missing from a map is a
 * file that cannot be opened. The environment variables are a map too.
 */
module Files {
  import Streams
  import opened Wrappers

  type byte = Streams.byte

  datatype Disk = Disk(binary: map<string, seq<byte>>, text: map<string, seq<string>>)

  /** Utils::OpenFile's message. */
  function OpenError(path: string): string { "Could not open file " + path }

  /**
   * Byte i of a buffer filled by fread from a file: the buffer is zeroed
   * before the read, so a byte past the end of a short file reads 0.
   */
  function Filled(file: seq<byte>, i: nat): (b: nat)
    ensures b < 256 && (i < |file| ==> b == file[i] as nat)
  {
    if i < |file| then file[i] as nat else 0
  }

  /** A byte in [0, 255] scaled into [0, 1]. */
  function Intensity(b: nat): (x: real)
    requires b < 256
    ensures 0.0 <= x <= 1.0
  {
    b as real / 255.0
  }

  /** Utils::GetEnv: the value of an environment variable, or an error naming it. */
  function GetEnv(env: map<string, string>, variable: string): (r: Result<string>)
    ensures r.Ok? <==> variable in env
    ensures r.Ok? ==> r.value == env[variable]
    ensures r.Err? ==> r.error == "Couldn't read environment variable " + variable
  {
    if variable in env then Ok(env[variable]) else Err("Couldn't read environment variable " + variable)
  }
}
