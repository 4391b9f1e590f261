/**
 Resource classification: the closed set of kinds of traced descriptor (a file,
 a socket or a pipe), each with its own descriptive fields and a fixed textual
 rendering that the report uses verbatim.
 */
module Descriptor {

  datatype Option<T> = None | Some(value: T)

  /** A file-like resource, named by its path or by a pseudo-name such as "STDIN". */
  datatype FileDescription = FileDescription(path: string)
  {
    /** The `Display` text of a file: "FILE Path:<path>". */
    function ToString(): (s: string)
      ensures FilePrefix <= s
      ensures s[|FilePrefix|..] == path
    {
      FilePrefix + path
    }
  }

  /** A network resource, named by its local and remote endpoints. */
  datatype SocketDescription = SocketDescription(bind: string, connect: string)
  {
    /** The description a socket starts with: both endpoints empty. */
    static function New(): (d: SocketDescription)
      ensures d.bind == [] && d.connect == []
    {
      SocketDescription("", "")
    }

    /** The `Display` text of a socket: "SOCKET Bind:<bind> Connect:<connect>". */
    function ToString(): (s: string)
      ensures SocketPrefix <= s
      ensures |s| == |SocketPrefix| + |bind| + |ConnectInfix| + |connect|
      ensures s[|SocketPrefix|..|SocketPrefix| + |bind|] == bind
      ensures s[|SocketPrefix| + |bind|..|SocketPrefix| + |bind| + |ConnectInfix|] == ConnectInfix
      ensures s[|s| - |connect|..] == connect
    {
      SocketPrefix + bind + ConnectInfix + connect
    }
  }

  const FilePrefix: string := "FILE Path:"
  const SocketPrefix: string := "SOCKET Bind:"
  const ConnectInfix: string := " Connect:"
  const PipeText: string := "PIPE"

  /** The kind of a traced resource; chosen once, when the resource is first seen. */
  datatype GenericFileDescriptor =
    | File(file: FileDescription)
    | Socket(socket: SocketDescription)
    | Pipe
  {
    /** The `Display` text of a descriptor: that of its variant, or "PIPE". */
    function ToString(): (s: string)
      ensures File? ==> s == file.ToString()
      ensures Socket? ==> s == socket.ToString()
      ensures Pipe? ==> s == PipeText
    {
      match this
      case File(f) => f.ToString()
      case Socket(s) => s.ToString()
      case Pipe => PipeText
    }
  }

  /** The three kinds, without their fields. */
  datatype Kind = FileKind | SocketKind | PipeKind

  function KindOf(d: GenericFileDescriptor): Kind {
    match d
    case File(_) => FileKind
    case Socket(_) => SocketKind
    case Pipe => PipeKind
  }

  /** Reads the kind back from a rendered descriptor, if the text is one. */
  function KindOfText(t: string): Option<Kind> {
    if FilePrefix <= t then Some(FileKind)
    else if SocketPrefix <= t then Some(SocketKind)
    else if t == PipeText then Some(PipeKind)
    else None
  }

  /** Reads the path back from a rendered file descriptor. */
  function PathOfText(t: string): Option<string> {
    if FilePrefix <= t then Some(t[|FilePrefix|..]) else None
  }

  /** The rendering of every descriptor tells which kind it is. */
  lemma KindOfTextToString(d: GenericFileDescriptor)
    ensures KindOfText(d.ToString()) == Some(KindOf(d))
  {
    var t := d.ToString();
    match d
    case File(f) =>
    case Socket(s) =>
      assert t[0] == 'S' != FilePrefix[0];
    case Pipe =>
      assert t[0] == 'P' != FilePrefix[0];
      assert |t| < |SocketPrefix|;
  }

  /** The rendering of a file gives its path back. */
  lemma PathOfTextToString(f: FileDescription)
    ensures PathOfText(File(f).ToString()) == Some(f.path)
  {
  }

  /** So distinct descriptors of kind File, or of different kinds, are rendered differently. */
  lemma ToStringDistinguishesFiles(d: GenericFileDescriptor, e: GenericFileDescriptor)
    requires d.File? || e.File? || KindOf(d) != KindOf(e)
    requires d.ToString() == e.ToString()
    ensures d == e
  {
    KindOfTextToString(d);
    KindOfTextToString(e);
    if d.File? {
      PathOfTextToString(d.file);
      PathOfTextToString(e.file);
    }
  }

  /**
   The socket rendering does not determine the endpoints: a bind address that
   itself contains " Connect:" reads the same as a different split.
   */
  lemma SocketToStringAmbiguous()
    ensures Socket(SocketDescription("a Connect:b", "c")).ToString()
         == Socket(SocketDescription("a", "b Connect:c")).ToString()
  {
    var t := SocketPrefix + "a" + " Connect:b" + ConnectInfix + "c";
    assert SocketPrefix + "a Connect:b" == SocketPrefix + "a" + " Connect:b";
    assert "b Connect:c" == "b" + ConnectInfix + "c";
    assert SocketPrefix + "a" + ConnectInfix + "b Connect:c" == t;
  }

  /** A new socket is rendered with both endpoints empty. */
  lemma NewSocketToString()
    ensures Socket(SocketDescription.New()).ToString() == "SOCKET Bind: Connect:"
  {
  }
}
