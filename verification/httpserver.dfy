/** pkg/httpserver/options.go: the functional options of the HTTP server. */
module HttpServer {

  type Duration = int

  const Two63: int := 0x8000_0000_0000_0000
  const Two64: int := 0x1_0000_0000_0000_0000

  /** Go's `int` on a 64-bit platform. */
  type Int = x: int | -0x8000_0000_0000_0000 <= x < 0x8000_0000_0000_0000

  /** Two's-complement wrap of a mathematical integer into `Int`. */
  function Wrap(x: int): (r: Int)
    ensures (r - x) % Two64 == 0
  {
    (x + Two63) % Two64 - Two63
  }

  const NumberOfBytes: int := 0x10_0000 // 1 << 20

  /** The server settings the options adjust. */
  datatype Server = Server(
    host: string, port: string, maxHeaderBytes: Int,
    readTimeout: Duration, readHeaderTimeout: Duration, writeTimeout: Duration)

  datatype ServerOption =
    | WithHost(host: string)
    | WithPort(port: string)
    | WithMaxHeaderBytes(mebibytes: Int)
    | WithReadTimeout(readTimeout: Duration)
    | WithReadHeaderTimeout(readHeaderTimeout: Duration)
    | WithWriteTimeout(writeTimeout: Duration)

  /** Each option sets its own field; `WithMaxHeaderBytes` converts MiB to
      bytes in `int` arithmetic, which wraps. */
  function Apply(o: ServerOption, s: Server): (r: Server)
    ensures o.WithHost? ==> r == s.(host := o.host)
    ensures o.WithPort? ==> r == s.(port := o.port)
    ensures o.WithMaxHeaderBytes? ==> r.(maxHeaderBytes := s.maxHeaderBytes) == s
    ensures o.WithMaxHeaderBytes? ==> r.maxHeaderBytes == Wrap(o.mebibytes * NumberOfBytes)
    ensures o.WithMaxHeaderBytes? ==>
      (r.maxHeaderBytes == o.mebibytes * NumberOfBytes <==> -0x800_0000_0000 <= o.mebibytes < 0x800_0000_0000)
    ensures o.WithReadTimeout? ==> r == s.(readTimeout := o.readTimeout)
    ensures o.WithReadHeaderTimeout? ==> r == s.(readHeaderTimeout := o.readHeaderTimeout)
    ensures o.WithWriteTimeout? ==> r == s.(writeTimeout := o.writeTimeout)
  {
    match o
    case WithHost(h) => s.(host := h)
    case WithPort(p) => s.(port := p)
    case WithMaxHeaderBytes(n) => s.(maxHeaderBytes := Wrap(n * NumberOfBytes))
    case WithReadTimeout(d) => s.(readTimeout := d)
    case WithReadHeaderTimeout(d) => s.(readHeaderTimeout := d)
    case WithWriteTimeout(d) => s.(writeTimeout := d)
  }

  /** Every option is idempotent: applying it twice equals applying it once. */
  lemma ApplyIdempotent(o: ServerOption, s: Server)
    ensures Apply(o, Apply(o, s)) == Apply(o, s)
  {
  }

  /** Which field an option sets. */
  function Field(o: ServerOption): nat
  {
    match o
    case WithHost(_) => 0
    case WithPort(_) => 1
    case WithMaxHeaderBytes(_) => 2
    case WithReadTimeout(_) => 3
    case WithReadHeaderTimeout(_) => 4
    case WithWriteTimeout(_) => 5
  }

  /** Options setting different fields commute; of two setting the same
      field, the later one wins. */
  lemma OptionsCommute(a: ServerOption, b: ServerOption, s: Server)
    ensures Field(a) != Field(b) ==> Apply(b, Apply(a, s)) == Apply(a, Apply(b, s))
    ensures Field(a) == Field(b) ==> Apply(b, Apply(a, s)) == Apply(b, s)
  {
  }

  /** The MiB conversion does not wrap for any count below 2^43; at 2^43 it
      wraps to the most negative `int`. */
  lemma MaxHeaderBytesRange(s: Server)
    ensures Apply(WithMaxHeaderBytes(0x7FF_FFFF_FFFF), s).maxHeaderBytes == 0x7FFF_FFFF_FFF0_0000
    ensures Apply(WithMaxHeaderBytes(0x800_0000_0000), s).maxHeaderBytes == -Two63
  {
  }
}
