/**
 * The outcomes of the build script's operations. Python raises exceptions;
 * here every operation that can raise returns a Result or an Outcome that
 * carries the reason.
 */
module Results {

  datatype Option<+T> = None | Some(value: T)
  {
    function GetOr(default: T): T
    {
      match this
      case Some(v) => v
      case None => default
    }
  }

  /** Why an operation failed: one constructor per exception the core raises. */
  datatype Error =
    | DownloadFailed(url: string)                         // urlretrieve raised
    | ChecksumFailed(path: string)                        // digest mismatch after a download
    | MirrorsExhausted(component: string, version: string) // the for/else loop ran out of mirrors
    | UnsupportedArchive(path: string)                    // no tar or zip suffix
    | ExtractFailed(path: string)                         // the archive could not be opened or read
    | MissingVersion(library: string)                     // ValueError in get_libc_source
    | MissingVariable(name: string)                       // KeyError on env['PATH']
    | WrongKind(path: string)                             // a file where a directory is needed, or the reverse
    | CommandFailed(argv: seq<string>, code: int)         // non-zero exit of run_command

  datatype Result<+T> = Success(value: T) | Failure(error: Error)

  datatype Outcome = Pass | Fail(error: Error)
}
