/** Path existence classification (genericIsPathExists / IsPathExists).
    The file system is abstracted as an oracle `stat` giving, per path, what
    os.Stat would report. */
module Paths {
  import opened Wrappers

  /** The part of os.FileInfo the model keeps; the step never inspects it. */
  datatype FileInfo = FileInfo(size: nat, isDir: bool)

  /** The three kinds of answer os.Stat can give: an entry, an error for which
      os.IsNotExist holds, or any other error (permissions, I/O, ...). */
  datatype StatResult = Stat(info: FileInfo) | NotExist | StatError(message: string)

  const NoPathProvided: string := "No path provided"

  /** Result triple of genericIsPathExists. */
  datatype PathInfo = PathInfo(info: Option<FileInfo>, isExists: bool, err: Option<string>)

  /** Result pair of IsPathExists. */
  datatype PathCheck = PathCheck(isExists: bool, err: Option<string>)

  function GenericIsPathExists(path: string, stat: string -> StatResult): (r: PathInfo)
    // an empty path is rejected without consulting the file system
    ensures path == "" ==> r == PathInfo(None, false, Some(NoPathProvided))
    // existence is reported exactly when stat found an entry, and then without error
    ensures r.isExists <==> path != "" && stat(path).Stat?
    ensures r.isExists ==> r.err == None && r.info == Some(stat(path).info)
    // "does not exist" is not an error ...
    ensures path != "" && stat(path).NotExist? ==> r == PathInfo(None, false, None)
    // ... but "could not determine" is, carrying stat's own error
    ensures path != "" && stat(path).StatError? ==> !r.isExists && r.err == Some(stat(path).message) && r.info == None
  {
    if path == "" then PathInfo(None, false, Some(NoPathProvided))
    else
      match stat(path)
      case Stat(info) => PathInfo(Some(info), true, None)
      case NotExist => PathInfo(None, false, None)
      case StatError(message) => PathInfo(None, false, Some(message))
  }

  function IsPathExists(path: string, stat: string -> StatResult): (r: PathCheck)
    // the answer is one of exactly three shapes: exists, missing, or undetermined
    ensures r == PathCheck(true, None) || r == PathCheck(false, None) || (!r.isExists && r.err.Some?)
    ensures r.isExists <==> path != "" && stat(path).Stat?
    ensures r.err.Some? <==> path == "" || stat(path).StatError?
    ensures path == "" ==> r.err == Some(NoPathProvided)
    ensures path != "" && stat(path).StatError? ==> r.err == Some(stat(path).message)
  {
    var g := GenericIsPathExists(path, stat);
    PathCheck(g.isExists, g.err)
  }

  /** Two file systems that agree on a path give the same classification of it:
      the answer depends on nothing but that one stat result. */
  lemma IsPathExistsLocal(path: string, stat1: string -> StatResult, stat2: string -> StatResult)
    requires path != "" ==> stat1(path) == stat2(path)
    ensures IsPathExists(path, stat1) == IsPathExists(path, stat2)
  {
  }
}
