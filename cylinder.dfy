/** The cylinder the merry-go-round uses for its middle pole and its four poles.
    Its source file is not part of this model: a cylinder is known here only by the
    arguments it was built with and by the draw calls its `render` issues, which
    the host library supplies. */
module Cylinders {
  import opened Gl
  import opened Host

  class Cylinder {
    const nSectors: nat
    const color: JsArg
    const texFlag: real
    /** The calls one `render` issues. */
    const draws: seq<Call>

    constructor (lib: Lib, nSectors: nat, color: JsArg, texFlag: real)
      ensures this.nSectors == nSectors && this.color == color && this.texFlag == texFlag
      ensures draws == lib.cylinderDraws(nSectors, color, texFlag)
    {
      this.nSectors := nSectors;
      this.color := color;
      this.texFlag := texFlag;
      this.draws := lib.cylinderDraws(nSectors, color, texFlag);
    }

    method Render(gl: Context)
      modifies gl
      ensures gl.trace == old(gl.trace) + draws
    {
      gl.Append(draws);
    }
  }
}
