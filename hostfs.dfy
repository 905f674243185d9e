/** The operating-system services the engine calls, reduced to the values
    they hand back: an opened file as the lines its scanner yields, and the
    rule by which os.Setenv refuses a variable. */
module HostFiles {

  /** What opening, stat-ing and scanning a file gives: the error of os.Open,
      the error of Stat, a directory, or a regular file read line by line by
      bufio.Scanner (each line without its "\n" and a trailing "\r"). */
  datatype TextFile = OpenFailed(error: string) | StatFailed(error: string) | Directory | Lines(lines: seq<string>)

  /** os.Setenv on Unix refuses (EINVAL) an empty key, a key holding '=' or
      NUL, and a value holding NUL; it then leaves the environment unchanged. */
  predicate SetenvFails(key: string, value: string) {
    key == [] || '=' in key || '\0' in key || '\0' in value
  }

  /** The text of the *SyscallError os.Setenv returns for EINVAL. */
  const SetenvError: string := "setenv: invalid argument"

  /** The environment after os.Setenv(key, value), and its error if any. */
  function Setenv(env: map<string, string>, key: string, value: string): (r: (bool, map<string, string>))
    ensures r.0 <==> SetenvFails(key, value)
    ensures r.0 ==> r.1 == env
    ensures !r.0 ==> key in r.1 && r.1[key] == value && r.1.Keys == env.Keys + {key}
    ensures forall k :: k in env && k != key ==> k in r.1 && r.1[k] == env[k]
  {
    if SetenvFails(key, value) then (true, env) else (false, env[key := value])
  }
}
