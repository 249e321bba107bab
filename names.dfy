/** The four-character chunk names the network files use, as the bytes `TAG` packs. */
module Names {
  import opened BinFormat

  const NWRK: Name := [0x4E, 0x57, 0x52, 0x4B]
  const LYRS: Name := [0x4C, 0x59, 0x52, 0x53]
  const OUTP: Name := [0x4F, 0x55, 0x54, 0x50]
  const TYPE: Name := [0x54, 0x59, 0x50, 0x45]
  const LAST: Name := [0x4C, 0x41, 0x53, 0x54]
  const INPT: Name := [0x49, 0x4E, 0x50, 0x54]
  const NAME: Name := [0x4E, 0x41, 0x4D, 0x45]
  const ICNT: Name := [0x49, 0x43, 0x4E, 0x54]
  const DENS: Name := [0x44, 0x45, 0x4E, 0x53]
  const ROWS: Name := [0x52, 0x4F, 0x57, 0x53]
  const COLS: Name := [0x43, 0x4F, 0x4C, 0x53]
  const WGHT: Name := [0x57, 0x47, 0x48, 0x54]
  const RATE: Name := [0x52, 0x41, 0x54, 0x45]
  const MMNT: Name := [0x4D, 0x4D, 0x4E, 0x54]
  const RMSP: Name := [0x52, 0x4D, 0x53, 0x50]
  const DRPT: Name := [0x44, 0x52, 0x50, 0x54]
  const ACTV: Name := [0x41, 0x43, 0x54, 0x56]
  const TRNS: Name := [0x54, 0x52, 0x4E, 0x53]
  const OUTC: Name := [0x4F, 0x55, 0x54, 0x43]
  const ADDR: Name := [0x41, 0x44, 0x44, 0x52]
  const INPC: Name := [0x49, 0x4E, 0x50, 0x43]
  const MULP: Name := [0x4D, 0x55, 0x4C, 0x50]
  const CMBN: Name := [0x43, 0x4D, 0x42, 0x4E]
  const RCNN: Name := [0x52, 0x43, 0x4E, 0x4E]
  const NDID: Name := [0x4E, 0x44, 0x49, 0x44]
}
