/** The curve P-256 and its base point. */
module Nist {
  import opened Modular
  import opened EllipticCurve

  const P := 0xFFFFFFFF00000001000000000000000000000000FFFFFFFFFFFFFFFFFFFFFFFF
  const B := 0x5AC635D8AA3A93E7B3EBBD55769886BC651D06B0CC53B0F63BCE3C3E27D2604B
  const N := 0xFFFFFFFF00000000FFFFFFFFFFFFFFFFBCE6FAADA7179E84F3B9CAC2FC632551
  const GX := 0x6B17D1F2E12C4247F8BCE6E563A440F277037D812DEB33A0F4A13945D898C296
  const GY := 0x4FE342E2FE1A7F9B8EE7EB4A7C0F9E162BCE33576B315ECECBB6406837BF51F5

  const P256 := Curve(P, P - 3, B)
  const G := At(GX, GY)

  /** The base point is on the curve. */
  lemma BaseOn()
    ensures On(P256, G)
  {
    assert Red(P, GY * GY) == Red(P, GX * GX * GX + (P - 3) * GX + B) by { BaseSolves(); }
    hide Red;
  }

  lemma BaseSolves()
    ensures GY * GY % P == (GX * GX * GX + (P - 3) * GX + B) % P
  {
  }
}
