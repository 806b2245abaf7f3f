/**
 * The remote sandbox the tools talk to, reduced to a map from path to file
 * content. Whether a remote call fails is not decided here: the caller
 * passes a `Fault` chosen by the environment, standing for any exception
 * the sandbox client could raise.
 */
module Workspace {

  import opened Wrappers

  /**
   * Where a tool's sandbox session fails: connecting to the sandbox
   * (`getSandbox`) throws, or the file operation with the given
   * zero-based index throws; `error` is the thrown value as text.
   */
  datatype Fault = ConnectFails(error: string) | OpFails(index: nat, error: string)

  /** The error raised when connecting, if any. */
  function ConnectError(fault: Option<Fault>): Option<string> {
    if fault.Some? && fault.value.ConnectFails? then Some(fault.value.error) else None
  }

  /** The error raised by file operation `i`, if any. */
  function OpError(fault: Option<Fault>, i: nat): Option<string> {
    if fault.Some? && fault.value.OpFails? && fault.value.index == i then Some(fault.value.error) else None
  }

  /** The text of the error a read of a missing path raises. */
  function NotFound(path: string): string {
    "file not found: " + path
  }

  class Sandbox {
    var fs: map<string, string>

    /** A sandbox started from a template holding the files `template`. */
    constructor (template: map<string, string>)
      ensures fs == template
    {
      fs := template;
    }

    /** `sandbox.files.write(path, content)`. */
    method Write(path: string, content: string)
      modifies this
      ensures fs == old(fs)[path := content]
    {
      fs := fs[path := content];
    }

    /** `sandbox.files.read(path)`: the content, or an error for a missing path. */
    method Read(path: string) returns (r: Result<string, string>)
      ensures path in fs ==> r == Ok(fs[path])
      ensures path !in fs ==> r == Err(NotFound(path))
    {
      if path in fs {
        r := Ok(fs[path]);
      } else {
        r := Err(NotFound(path));
      }
    }
  }
}
