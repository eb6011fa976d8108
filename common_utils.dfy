/** agent_common/utils.py: selecting the single file a glob matches in a directory. */
module CommonUtils {
  import opened Wrappers
  import opened Paths

  /** `find_file_in_dir_by_glob`, given the list `found` that `dir_path.glob(filename_glob)` yields. */
  function FindFileInDirByGlob(dirPath: Path, filenameGlob: string, found: seq<Path>): (r: Result<Path>)
    ensures r.Ok? <==> |found| == 1
    ensures r.Ok? ==> r.value == found[0] && r.value in found
    ensures |found| > 1 <==> r == Err(ValueError("More than one file is found by using glob '" + filenameGlob + "' in directory '" + dirPath + "'."))
    ensures |found| == 0 <==> r == Err(FileNotFoundError("Can not find any file by using glob '" + filenameGlob + "' in directory '" + dirPath + "'."))
  {
    if |found| > 1 then
      Err(ValueError("More than one file is found by using glob '" + filenameGlob + "' in directory '" + dirPath + "'."))
    else if found == [] then
      Err(FileNotFoundError("Can not find any file by using glob '" + filenameGlob + "' in directory '" + dirPath + "'."))
    else Ok(found[0])
  }
}
