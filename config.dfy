/**
 * Configuration handles: the database options and the write options. Each
 * setter overwrites one field; bool parameters are bytes with 0 false and
 * every other value true.
 */
module Config {
  import opened Wrappers
  import opened ByteStrings

  /** The compression modes, a closed enumeration with fixed integer codes. */
  datatype Compression = NoCompression | SnappyCompression

  function CompressionCode(c: Compression): int32
  {
    match c
    case NoCompression => 0
    case SnappyCompression => 1
  }

  /** The mode an integer code names, if it names one. */
  function CompressionOf(code: int32): Option<Compression>
  {
    if code == 0 then Some(NoCompression)
    else if code == 1 then Some(SnappyCompression)
    else None
  }

  /** Exactly the codes 0 and 1 are modes, and each mode has exactly one code. */
  lemma CompressionCodes(c: Compression, code: int32)
    ensures CompressionOf(CompressionCode(c)) == Some(c)
    ensures CompressionOf(code) == Some(c) <==> code == CompressionCode(c)
    ensures CompressionOf(code).Some? <==> code == 0 || code == 1
  {
  }

  /** The scalar settings an options handle carries. */
  datatype Settings = Settings(
    createIfMissing: bool,
    errorIfExists: bool,
    paranoidChecks: bool,
    writeBufferSize: size_t,
    maxOpenFiles: int32,
    blockSize: size_t,
    blockRestartInterval: int32,
    compression: int32)

  class Options {
    var settings: Settings

    /** A new handle carries the engine's defaults, given here as a parameter. */
    constructor (defaults: Settings)
      ensures settings == defaults
    {
      settings := defaults;
    }

    method SetCreateIfMissing(v: byte)
      modifies this
      ensures settings == old(settings).(createIfMissing := v != 0)
    {
      settings := settings.(createIfMissing := v != 0);
    }

    method SetErrorIfExists(v: byte)
      modifies this
      ensures settings == old(settings).(errorIfExists := v != 0)
    {
      settings := settings.(errorIfExists := v != 0);
    }

    method SetParanoidChecks(v: byte)
      modifies this
      ensures settings == old(settings).(paranoidChecks := v != 0)
    {
      settings := settings.(paranoidChecks := v != 0);
    }

    method SetWriteBufferSize(n: size_t)
      modifies this
      ensures settings == old(settings).(writeBufferSize := n)
    {
      settings := settings.(writeBufferSize := n);
    }

    method SetMaxOpenFiles(n: int32)
      modifies this
      ensures settings == old(settings).(maxOpenFiles := n)
    {
      settings := settings.(maxOpenFiles := n);
    }

    method SetBlockSize(n: size_t)
      modifies this
      ensures settings == old(settings).(blockSize := n)
    {
      settings := settings.(blockSize := n);
    }

    method SetBlockRestartInterval(n: int32)
      modifies this
      ensures settings == old(settings).(blockRestartInterval := n)
    {
      settings := settings.(blockRestartInterval := n);
    }

    /** Stores the code as given; CompressionOf says which mode it names. */
    method SetCompression(code: int32)
      modifies this
      ensures settings == old(settings).(compression := code)
    {
      settings := settings.(compression := code);
    }
  }

  class WriteOptions {
    var sync: bool

    constructor (sync: bool)
      ensures this.sync == sync
    {
      this.sync := sync;
    }

    method SetSync(v: byte)
      modifies this
      ensures sync == (v != 0)
    {
      sync := v != 0;
    }
  }
}
