/** Maps that distribute over an associative operation, whatever the operation is. */
module Additive {

  ghost predicate Associative<T(!new)>(xor: (T, T) -> T) {
    forall x, y, z :: xor(xor(x, y), z) == xor(x, xor(y, z))
  }

  ghost predicate Linear<T(!new)>(f: T -> T, xor: (T, T) -> T) {
    forall x, y :: f(xor(x, y)) == xor(f(x), f(y))
  }

  lemma EightfoldLinear<T(!new)>(f: T -> T, xor: (T, T) -> T, x: T, y: T)
    requires Linear(f, xor)
    ensures f(f(f(f(f(f(f(f(xor(x, y)))))))))
         == xor(f(f(f(f(f(f(f(f(x)))))))), f(f(f(f(f(f(f(f(y)))))))))
  {}

  lemma EightTerms<T(!new)>(f: T -> T, xor: (T, T) -> T,
      a0: T, a1: T, a2: T, a3: T, a4: T, a5: T, a6: T, a7: T)
    requires Linear(f, xor)
    ensures f(xor(xor(xor(xor(xor(xor(xor(a0, a1), a2), a3), a4), a5), a6), a7))
         == xor(xor(xor(xor(xor(xor(xor(f(a0), f(a1)), f(a2)), f(a3)), f(a4)), f(a5)), f(a6)), f(a7))
  {}

  /** Four alternations of adding a term and applying f are one addition followed by four applications. */
  lemma FourSteps<T(!new)>(f: T -> T, xor: (T, T) -> T, c: T,
      b0: T, b1: T, b2: T, b3: T, u1: T, u2: T, u3: T)
    requires Associative(xor) && Linear(f, xor)
    requires f(u1) == b1 && f(f(u2)) == b2 && f(f(f(u3))) == b3
    ensures f(xor(f(xor(f(xor(f(xor(c, b0)), b1)), b2)), b3))
         == f(f(f(f(xor(c, xor(xor(xor(b0, u1), u2), u3))))))
  {
    assert xor(c, xor(xor(xor(b0, u1), u2), u3)) == xor(xor(xor(xor(c, b0), u1), u2), u3);
  }

  lemma FourLanes<T(!new)>(f: T -> T, xor: (T, T) -> T,
      y0: T, y1: T, y2: T, y3: T, v1: T, v2: T, v3: T)
    requires Linear(f, xor)
    requires f(v1) == y1 && f(f(v2)) == y2 && f(f(f(v3))) == y3
    ensures f(f(f(f(xor(xor(xor(y0, v1), v2), v3)))))
         == xor(xor(xor(f(f(f(f(y0)))), f(f(f(y1)))), f(f(y2))), f(y3))
  {}

  lemma FourfoldLinear<T(!new)>(f: T -> T, xor: (T, T) -> T, x: T, y: T)
    requires Linear(f, xor)
    ensures f(f(f(f(xor(x, y))))) == xor(f(f(f(f(x)))), f(f(f(f(y)))))
  {}

  lemma Regroup<T(!new)>(xor: (T, T) -> T, c: T, a0: T, a1: T, a2: T, a3: T)
    requires Associative(xor)
    ensures xor(c, xor(xor(xor(a0, a1), a2), a3)) == xor(xor(xor(xor(c, a0), a1), a2), a3)
  {}
}

/**
 The eight 256-entry lookup tables of the MS-PST CRC (section 5.3 of [MS-PST]), transcribed entry by
 entry, and the proof that they are what the algorithm needs: every table is linear over XOR, and
 table k holds the reflected polynomial division of its index by 8(k+1) bits.

 A table is a function of the byte that indexes it. Its outer match selects a row of sixteen entries
 by the high nibble, and the inner match selects the entry by the low nibble.
 */
module CrcTables {
  import opened Additive

  function Offset32(b: bv8): bv32 {
    var j := b & 15;
    match b >> 4
    case  0 => (match j
      case  0 => 0x00000000 case  1 => 0x77073096 case  2 => 0xEE0E612C case  3 => 0x990951BA
      case  4 => 0x076DC419 case  5 => 0x706AF48F case  6 => 0xE963A535 case  7 => 0x9E6495A3
      case  8 => 0x0EDB8832 case  9 => 0x79DCB8A4 case 10 => 0xE0D5E91E case 11 => 0x97D2D988
      case 12 => 0x09B64C2B case 13 => 0x7EB17CBD case 14 => 0xE7B82D07 case _  => 0x90BF1D91)
    case  1 => (match j
      case  0 => 0x1DB71064 case  1 => 0x6AB020F2 case  2 => 0xF3B97148 case  3 => 0x84BE41DE
      case  4 => 0x1ADAD47D case  5 => 0x6DDDE4EB case  6 => 0xF4D4B551 case  7 => 0x83D385C7
      case  8 => 0x136C9856 case  9 => 0x646BA8C0 case 10 => 0xFD62F97A case 11 => 0x8A65C9EC
      case 12 => 0x14015C4F case 13 => 0x63066CD9 case 14 => 0xFA0F3D63 case _  => 0x8D080DF5)
    case  2 => (match j
      case  0 => 0x3B6E20C8 case  1 => 0x4C69105E case  2 => 0xD56041E4 case  3 => 0xA2677172
      case  4 => 0x3C03E4D1 case  5 => 0x4B04D447 case  6 => 0xD20D85FD case  7 => 0xA50AB56B
      case  8 => 0x35B5A8FA case  9 => 0x42B2986C case 10 => 0xDBBBC9D6 case 11 => 0xACBCF940
      case 12 => 0x32D86CE3 case 13 => 0x45DF5C75 case 14 => 0xDCD60DCF case _  => 0xABD13D59)
    case  3 => (match j
      case  0 => 0x26D930AC case  1 => 0x51DE003A case  2 => 0xC8D75180 case  3 => 0xBFD06116
      case  4 => 0x21B4F4B5 case  5 => 0x56B3C423 case  6 => 0xCFBA9599 case  7 => 0xB8BDA50F
      case  8 => 0x2802B89E case  9 => 0x5F058808 case 10 => 0xC60CD9B2 case 11 => 0xB10BE924
      case 12 => 0x2F6F7C87 case 13 => 0x58684C11 case 14 => 0xC1611DAB case _  => 0xB6662D3D)
    case  4 => (match j
      case  0 => 0x76DC4190 case  1 => 0x01DB7106 case  2 => 0x98D220BC case  3 => 0xEFD5102A
      case  4 => 0x71B18589 case  5 => 0x06B6B51F case  6 => 0x9FBFE4A5 case  7 => 0xE8B8D433
      case  8 => 0x7807C9A2 case  9 => 0x0F00F934 case 10 => 0x9609A88E case 11 => 0xE10E9818
      case 12 => 0x7F6A0DBB case 13 => 0x086D3D2D case 14 => 0x91646C97 case _  => 0xE6635C01)
    case  5 => (match j
      case  0 => 0x6B6B51F4 case  1 => 0x1C6C6162 case  2 => 0x856530D8 case  3 => 0xF262004E
      case  4 => 0x6C0695ED case  5 => 0x1B01A57B case  6 => 0x8208F4C1 case  7 => 0xF50FC457
      case  8 => 0x65B0D9C6 case  9 => 0x12B7E950 case 10 => 0x8BBEB8EA case 11 => 0xFCB9887C
      case 12 => 0x62DD1DDF case 13 => 0x15DA2D49 case 14 => 0x8CD37CF3 case _  => 0xFBD44C65)
    case  6 => (match j
      case  0 => 0x4DB26158 case  1 => 0x3AB551CE case  2 => 0xA3BC0074 case  3 => 0xD4BB30E2
      case  4 => 0x4ADFA541 case  5 => 0x3DD895D7 case  6 => 0xA4D1C46D case  7 => 0xD3D6F4FB
      case  8 => 0x4369E96A case  9 => 0x346ED9FC case 10 => 0xAD678846 case 11 => 0xDA60B8D0
      case 12 => 0x44042D73 case 13 => 0x33031DE5 case 14 => 0xAA0A4C5F case _  => 0xDD0D7CC9)
    case  7 => (match j
      case  0 => 0x5005713C case  1 => 0x270241AA case  2 => 0xBE0B1010 case  3 => 0xC90C2086
      case  4 => 0x5768B525 case  5 => 0x206F85B3 case  6 => 0xB966D409 case  7 => 0xCE61E49F
      case  8 => 0x5EDEF90E case  9 => 0x29D9C998 case 10 => 0xB0D09822 case 11 => 0xC7D7A8B4
      case 12 => 0x59B33D17 case 13 => 0x2EB40D81 case 14 => 0xB7BD5C3B case _  => 0xC0BA6CAD)
    case  8 => (match j
      case  0 => 0xEDB88320 case  1 => 0x9ABFB3B6 case  2 => 0x03B6E20C case  3 => 0x74B1D29A
      case  4 => 0xEAD54739 case  5 => 0x9DD277AF case  6 => 0x04DB2615 case  7 => 0x73DC1683
      case  8 => 0xE3630B12 case  9 => 0x94643B84 case 10 => 0x0D6D6A3E case 11 => 0x7A6A5AA8
      case 12 => 0xE40ECF0B case 13 => 0x9309FF9D case 14 => 0x0A00AE27 case _  => 0x7D079EB1)
    case  9 => (match j
      case  0 => 0xF00F9344 case  1 => 0x8708A3D2 case  2 => 0x1E01F268 case  3 => 0x6906C2FE
      case  4 => 0xF762575D case  5 => 0x806567CB case  6 => 0x196C3671 case  7 => 0x6E6B06E7
      case  8 => 0xFED41B76 case  9 => 0x89D32BE0 case 10 => 0x10DA7A5A case 11 => 0x67DD4ACC
      case 12 => 0xF9B9DF6F case 13 => 0x8EBEEFF9 case 14 => 0x17B7BE43 case _  => 0x60B08ED5)
    case 10 => (match j
      case  0 => 0xD6D6A3E8 case  1 => 0xA1D1937E case  2 => 0x38D8C2C4 case  3 => 0x4FDFF252
      case  4 => 0xD1BB67F1 case  5 => 0xA6BC5767 case  6 => 0x3FB506DD case  7 => 0x48B2364B
      case  8 => 0xD80D2BDA case  9 => 0xAF0A1B4C case 10 => 0x36034AF6 case 11 => 0x41047A60
      case 12 => 0xDF60EFC3 case 13 => 0xA867DF55 case 14 => 0x316E8EEF case _  => 0x4669BE79)
    case 11 => (match j
      case  0 => 0xCB61B38C case  1 => 0xBC66831A case  2 => 0x256FD2A0 case  3 => 0x5268E236
      case  4 => 0xCC0C7795 case  5 => 0xBB0B4703 case  6 => 0x220216B9 case  7 => 0x5505262F
      case  8 => 0xC5BA3BBE case  9 => 0xB2BD0B28 case 10 => 0x2BB45A92 case 11 => 0x5CB36A04
      case 12 => 0xC2D7FFA7 case 13 => 0xB5D0CF31 case 14 => 0x2CD99E8B case _  => 0x5BDEAE1D)
    case 12 => (match j
      case  0 => 0x9B64C2B0 case  1 => 0xEC63F226 case  2 => 0x756AA39C case  3 => 0x026D930A
      case  4 => 0x9C0906A9 case  5 => 0xEB0E363F case  6 => 0x72076785 case  7 => 0x05005713
      case  8 => 0x95BF4A82 case  9 => 0xE2B87A14 case 10 => 0x7BB12BAE case 11 => 0x0CB61B38
      case 12 => 0x92D28E9B case 13 => 0xE5D5BE0D case 14 => 0x7CDCEFB7 case _  => 0x0BDBDF21)
    case 13 => (match j
      case  0 => 0x86D3D2D4 case  1 => 0xF1D4E242 case  2 => 0x68DDB3F8 case  3 => 0x1FDA836E
      case  4 => 0x81BE16CD case  5 => 0xF6B9265B case  6 => 0x6FB077E1 case  7 => 0x18B74777
      case  8 => 0x88085AE6 case  9 => 0xFF0F6A70 case 10 => 0x66063BCA case 11 => 0x11010B5C
      case 12 => 0x8F659EFF case 13 => 0xF862AE69 case 14 => 0x616BFFD3 case _  => 0x166CCF45)
    case 14 => (match j
      case  0 => 0xA00AE278 case  1 => 0xD70DD2EE case  2 => 0x4E048354 case  3 => 0x3903B3C2
      case  4 => 0xA7672661 case  5 => 0xD06016F7 case  6 => 0x4969474D case  7 => 0x3E6E77DB
      case  8 => 0xAED16A4A case  9 => 0xD9D65ADC case 10 => 0x40DF0B66 case 11 => 0x37D83BF0
      case 12 => 0xA9BCAE53 case 13 => 0xDEBB9EC5 case 14 => 0x47B2CF7F case _  => 0x30B5FFE9)
    case _  => (match j
      case  0 => 0xBDBDF21C case  1 => 0xCABAC28A case  2 => 0x53B39330 case  3 => 0x24B4A3A6
      case  4 => 0xBAD03605 case  5 => 0xCDD70693 case  6 => 0x54DE5729 case  7 => 0x23D967BF
      case  8 => 0xB3667A2E case  9 => 0xC4614AB8 case 10 => 0x5D681B02 case 11 => 0x2A6F2B94
      case 12 => 0xB40BBE37 case 13 => 0xC30C8EA1 case 14 => 0x5A05DF1B case _  => 0x2D02EF8D)
  }

  function Offset40(b: bv8): bv32 {
    var j := b & 15;
    match b >> 4
    case  0 => (match j
      case  0 => 0x00000000 case  1 => 0x191B3141 case  2 => 0x32366282 case  3 => 0x2B2D53C3
      case  4 => 0x646CC504 case  5 => 0x7D77F445 case  6 => 0x565AA786 case  7 => 0x4F4196C7
      case  8 => 0xC8D98A08 case  9 => 0xD1C2BB49 case 10 => 0xFAEFE88A case 11 => 0xE3F4D9CB
      case 12 => 0xACB54F0C case 13 => 0xB5AE7E4D case 14 => 0x9E832D8E case _  => 0x87981CCF)
    case  1 => (match j
      case  0 => 0x4AC21251 case  1 => 0x53D92310 case  2 => 0x78F470D3 case  3 => 0x61EF4192
      case  4 => 0x2EAED755 case  5 => 0x37B5E614 case  6 => 0x1C98B5D7 case  7 => 0x05838496
      case  8 => 0x821B9859 case  9 => 0x9B00A918 case 10 => 0xB02DFADB case 11 => 0xA936CB9A
      case 12 => 0xE6775D5D case 13 => 0xFF6C6C1C case 14 => 0xD4413FDF case _  => 0xCD5A0E9E)
    case  2 => (match j
      case  0 => 0x958424A2 case  1 => 0x8C9F15E3 case  2 => 0xA7B24620 case  3 => 0xBEA97761
      case  4 => 0xF1E8E1A6 case  5 => 0xE8F3D0E7 case  6 => 0xC3DE8324 case  7 => 0xDAC5B265
      case  8 => 0x5D5DAEAA case  9 => 0x44469FEB case 10 => 0x6F6BCC28 case 11 => 0x7670FD69
      case 12 => 0x39316BAE case 13 => 0x202A5AEF case 14 => 0x0B07092C case _  => 0x121C386D)
    case  3 => (match j
      case  0 => 0xDF4636F3 case  1 => 0xC65D07B2 case  2 => 0xED705471 case  3 => 0xF46B6530
      case  4 => 0xBB2AF3F7 case  5 => 0xA231C2B6 case  6 => 0x891C9175 case  7 => 0x9007A034
      case  8 => 0x179FBCFB case  9 => 0x0E848DBA case 10 => 0x25A9DE79 case 11 => 0x3CB2EF38
      case 12 => 0x73F379FF case 13 => 0x6AE848BE case 14 => 0x41C51B7D case _  => 0x58DE2A3C)
    case  4 => (match j
      case  0 => 0xF0794F05 case  1 => 0xE9627E44 case  2 => 0xC24F2D87 case  3 => 0xDB541CC6
      case  4 => 0x94158A01 case  5 => 0x8D0EBB40 case  6 => 0xA623E883 case  7 => 0xBF38D9C2
      case  8 => 0x38A0C50D case  9 => 0x21BBF44C case 10 => 0x0A96A78F case 11 => 0x138D96CE
      case 12 => 0x5CCC0009 case 13 => 0x45D73148 case 14 => 0x6EFA628B case _  => 0x77E153CA)
    case  5 => (match j
      case  0 => 0xBABB5D54 case  1 => 0xA3A06C15 case  2 => 0x888D3FD6 case  3 => 0x91960E97
      case  4 => 0xDED79850 case  5 => 0xC7CCA911 case  6 => 0xECE1FAD2 case  7 => 0xF5FACB93
      case  8 => 0x7262D75C case  9 => 0x6B79E61D case 10 => 0x4054B5DE case 11 => 0x594F849F
      case 12 => 0x160E1258 case 13 => 0x0F152319 case 14 => 0x243870DA case _  => 0x3D23419B)
    case  6 => (match j
      case  0 => 0x65FD6BA7 case  1 => 0x7CE65AE6 case  2 => 0x57CB0925 case  3 => 0x4ED03864
      case  4 => 0x0191AEA3 case  5 => 0x188A9FE2 case  6 => 0x33A7CC21 case  7 => 0x2ABCFD60
      case  8 => 0xAD24E1AF case  9 => 0xB43FD0EE case 10 => 0x9F12832D case 11 => 0x8609B26C
      case 12 => 0xC94824AB case 13 => 0xD05315EA case 14 => 0xFB7E4629 case _  => 0xE2657768)
    case  7 => (match j
      case  0 => 0x2F3F79F6 case  1 => 0x362448B7 case  2 => 0x1D091B74 case  3 => 0x04122A35
      case  4 => 0x4B53BCF2 case  5 => 0x52488DB3 case  6 => 0x7965DE70 case  7 => 0x607EEF31
      case  8 => 0xE7E6F3FE case  9 => 0xFEFDC2BF case 10 => 0xD5D0917C case 11 => 0xCCCBA03D
      case 12 => 0x838A36FA case 13 => 0x9A9107BB case 14 => 0xB1BC5478 case _  => 0xA8A76539)
    case  8 => (match j
      case  0 => 0x3B83984B case  1 => 0x2298A90A case  2 => 0x09B5FAC9 case  3 => 0x10AECB88
      case  4 => 0x5FEF5D4F case  5 => 0x46F46C0E case  6 => 0x6DD93FCD case  7 => 0x74C20E8C
      case  8 => 0xF35A1243 case  9 => 0xEA412302 case 10 => 0xC16C70C1 case 11 => 0xD8774180
      case 12 => 0x9736D747 case 13 => 0x8E2DE606 case 14 => 0xA500B5C5 case _  => 0xBC1B8484)
    case  9 => (match j
      case  0 => 0x71418A1A case  1 => 0x685ABB5B case  2 => 0x4377E898 case  3 => 0x5A6CD9D9
      case  4 => 0x152D4F1E case  5 => 0x0C367E5F case  6 => 0x271B2D9C case  7 => 0x3E001CDD
      case  8 => 0xB9980012 case  9 => 0xA0833153 case 10 => 0x8BAE6290 case 11 => 0x92B553D1
      case 12 => 0xDDF4C516 case 13 => 0xC4EFF457 case 14 => 0xEFC2A794 case _  => 0xF6D996D5)
    case 10 => (match j
      case  0 => 0xAE07BCE9 case  1 => 0xB71C8DA8 case  2 => 0x9C31DE6B case  3 => 0x852AEF2A
      case  4 => 0xCA6B79ED case  5 => 0xD37048AC case  6 => 0xF85D1B6F case  7 => 0xE1462A2E
      case  8 => 0x66DE36E1 case  9 => 0x7FC507A0 case 10 => 0x54E85463 case 11 => 0x4DF36522
      case 12 => 0x02B2F3E5 case 13 => 0x1BA9C2A4 case 14 => 0x30849167 case _  => 0x299FA026)
    case 11 => (match j
      case  0 => 0xE4C5AEB8 case  1 => 0xFDDE9FF9 case  2 => 0xD6F3CC3A case  3 => 0xCFE8FD7B
      case  4 => 0x80A96BBC case  5 => 0x99B25AFD case  6 => 0xB29F093E case  7 => 0xAB84387F
      case  8 => 0x2C1C24B0 case  9 => 0x350715F1 case 10 => 0x1E2A4632 case 11 => 0x07317773
      case 12 => 0x4870E1B4 case 13 => 0x516BD0F5 case 14 => 0x7A468336 case _  => 0x635DB277)
    case 12 => (match j
      case  0 => 0xCBFAD74E case  1 => 0xD2E1E60F case  2 => 0xF9CCB5CC case  3 => 0xE0D7848D
      case  4 => 0xAF96124A case  5 => 0xB68D230B case  6 => 0x9DA070C8 case  7 => 0x84BB4189
      case  8 => 0x03235D46 case  9 => 0x1A386C07 case 10 => 0x31153FC4 case 11 => 0x280E0E85
      case 12 => 0x674F9842 case 13 => 0x7E54A903 case 14 => 0x5579FAC0 case _  => 0x4C62CB81)
    case 13 => (match j
      case  0 => 0x8138C51F case  1 => 0x9823F45E case  2 => 0xB30EA79D case  3 => 0xAA1596DC
      case  4 => 0xE554001B case  5 => 0xFC4F315A case  6 => 0xD7626299 case  7 => 0xCE7953D8
      case  8 => 0x49E14F17 case  9 => 0x50FA7E56 case 10 => 0x7BD72D95 case 11 => 0x62CC1CD4
      case 12 => 0x2D8D8A13 case 13 => 0x3496BB52 case 14 => 0x1FBBE891 case _  => 0x06A0D9D0)
    case 14 => (match j
      case  0 => 0x5E7EF3EC case  1 => 0x4765C2AD case  2 => 0x6C48916E case  3 => 0x7553A02F
      case  4 => 0x3A1236E8 case  5 => 0x230907A9 case  6 => 0x0824546A case  7 => 0x113F652B
      case  8 => 0x96A779E4 case  9 => 0x8FBC48A5 case 10 => 0xA4911B66 case 11 => 0xBD8A2A27
      case 12 => 0xF2CBBCE0 case 13 => 0xEBD08DA1 case 14 => 0xC0FDDE62 case _  => 0xD9E6EF23)
    case _  => (match j
      case  0 => 0x14BCE1BD case  1 => 0x0DA7D0FC case  2 => 0x268A833F case  3 => 0x3F91B27E
      case  4 => 0x70D024B9 case  5 => 0x69CB15F8 case  6 => 0x42E6463B case  7 => 0x5BFD777A
      case  8 => 0xDC656BB5 case  9 => 0xC57E5AF4 case 10 => 0xEE530937 case 11 => 0xF7483876
      case 12 => 0xB809AEB1 case 13 => 0xA1129FF0 case 14 => 0x8A3FCC33 case _  => 0x9324FD72)
  }

  function Offset48(b: bv8): bv32 {
    var j := b & 15;
    match b >> 4
    case  0 => (match j
      case  0 => 0x00000000 case  1 => 0x01C26A37 case  2 => 0x0384D46E case  3 => 0x0246BE59
      case  4 => 0x0709A8DC case  5 => 0x06CBC2EB case  6 => 0x048D7CB2 case  7 => 0x054F1685
      case  8 => 0x0E1351B8 case  9 => 0x0FD13B8F case 10 => 0x0D9785D6 case 11 => 0x0C55EFE1
      case 12 => 0x091AF964 case 13 => 0x08D89353 case 14 => 0x0A9E2D0A case _  => 0x0B5C473D)
    case  1 => (match j
      case  0 => 0x1C26A370 case  1 => 0x1DE4C947 case  2 => 0x1FA2771E case  3 => 0x1E601D29
      case  4 => 0x1B2F0BAC case  5 => 0x1AED619B case  6 => 0x18ABDFC2 case  7 => 0x1969B5F5
      case  8 => 0x1235F2C8 case  9 => 0x13F798FF case 10 => 0x11B126A6 case 11 => 0x10734C91
      case 12 => 0x153C5A14 case 13 => 0x14FE3023 case 14 => 0x16B88E7A case _  => 0x177AE44D)
    case  2 => (match j
      case  0 => 0x384D46E0 case  1 => 0x398F2CD7 case  2 => 0x3BC9928E case  3 => 0x3A0BF8B9
      case  4 => 0x3F44EE3C case  5 => 0x3E86840B case  6 => 0x3CC03A52 case  7 => 0x3D025065
      case  8 => 0x365E1758 case  9 => 0x379C7D6F case 10 => 0x35DAC336 case 11 => 0x3418A901
      case 12 => 0x3157BF84 case 13 => 0x3095D5B3 case 14 => 0x32D36BEA case _  => 0x331101DD)
    case  3 => (match j
      case  0 => 0x246BE590 case  1 => 0x25A98FA7 case  2 => 0x27EF31FE case  3 => 0x262D5BC9
      case  4 => 0x23624D4C case  5 => 0x22A0277B case  6 => 0x20E69922 case  7 => 0x2124F315
      case  8 => 0x2A78B428 case  9 => 0x2BBADE1F case 10 => 0x29FC6046 case 11 => 0x283E0A71
      case 12 => 0x2D711CF4 case 13 => 0x2CB376C3 case 14 => 0x2EF5C89A case _  => 0x2F37A2AD)
    case  4 => (match j
      case  0 => 0x709A8DC0 case  1 => 0x7158E7F7 case  2 => 0x731E59AE case  3 => 0x72DC3399
      case  4 => 0x7793251C case  5 => 0x76514F2B case  6 => 0x7417F172 case  7 => 0x75D59B45
      case  8 => 0x7E89DC78 case  9 => 0x7F4BB64F case 10 => 0x7D0D0816 case 11 => 0x7CCF6221
      case 12 => 0x798074A4 case 13 => 0x78421E93 case 14 => 0x7A04A0CA case _  => 0x7BC6CAFD)
    case  5 => (match j
      case  0 => 0x6CBC2EB0 case  1 => 0x6D7E4487 case  2 => 0x6F38FADE case  3 => 0x6EFA90E9
      case  4 => 0x6BB5866C case  5 => 0x6A77EC5B case  6 => 0x68315202 case  7 => 0x69F33835
      case  8 => 0x62AF7F08 case  9 => 0x636D153F case 10 => 0x612BAB66 case 11 => 0x60E9C151
      case 12 => 0x65A6D7D4 case 13 => 0x6464BDE3 case 14 => 0x662203BA case _  => 0x67E0698D)
    case  6 => (match j
      case  0 => 0x48D7CB20 case  1 => 0x4915A117 case  2 => 0x4B531F4E case  3 => 0x4A917579
      case  4 => 0x4FDE63FC case  5 => 0x4E1C09CB case  6 => 0x4C5AB792 case  7 => 0x4D98DDA5
      case  8 => 0x46C49A98 case  9 => 0x4706F0AF case 10 => 0x45404EF6 case 11 => 0x448224C1
      case 12 => 0x41CD3244 case 13 => 0x400F5873 case 14 => 0x4249E62A case _  => 0x438B8C1D)
    case  7 => (match j
      case  0 => 0x54F16850 case  1 => 0x55330267 case  2 => 0x5775BC3E case  3 => 0x56B7D609
      case  4 => 0x53F8C08C case  5 => 0x523AAABB case  6 => 0x507C14E2 case  7 => 0x51BE7ED5
      case  8 => 0x5AE239E8 case  9 => 0x5B2053DF case 10 => 0x5966ED86 case 11 => 0x58A487B1
      case 12 => 0x5DEB9134 case 13 => 0x5C29FB03 case 14 => 0x5E6F455A case _  => 0x5FAD2F6D)
    case  8 => (match j
      case  0 => 0xE1351B80 case  1 => 0xE0F771B7 case  2 => 0xE2B1CFEE case  3 => 0xE373A5D9
      case  4 => 0xE63CB35C case  5 => 0xE7FED96B case  6 => 0xE5B86732 case  7 => 0xE47A0D05
      case  8 => 0xEF264A38 case  9 => 0xEEE4200F case 10 => 0xECA29E56 case 11 => 0xED60F461
      case 12 => 0xE82FE2E4 case 13 => 0xE9ED88D3 case 14 => 0xEBAB368A case _  => 0xEA695CBD)
    case  9 => (match j
      case  0 => 0xFD13B8F0 case  1 => 0xFCD1D2C7 case  2 => 0xFE976C9E case  3 => 0xFF5506A9
      case  4 => 0xFA1A102C case  5 => 0xFBD87A1B case  6 => 0xF99EC442 case  7 => 0xF85CAE75
      case  8 => 0xF300E948 case  9 => 0xF2C2837F case 10 => 0xF0843D26 case 11 => 0xF1465711
      case 12 => 0xF4094194 case 13 => 0xF5CB2BA3 case 14 => 0xF78D95FA case _  => 0xF64FFFCD)
    case 10 => (match j
      case  0 => 0xD9785D60 case  1 => 0xD8BA3757 case  2 => 0xDAFC890E case  3 => 0xDB3EE339
      case  4 => 0xDE71F5BC case  5 => 0xDFB39F8B case  6 => 0xDDF521D2 case  7 => 0xDC374BE5
      case  8 => 0xD76B0CD8 case  9 => 0xD6A966EF case 10 => 0xD4EFD8B6 case 11 => 0xD52DB281
      case 12 => 0xD062A404 case 13 => 0xD1A0CE33 case 14 => 0xD3E6706A case _  => 0xD2241A5D)
    case 11 => (match j
      case  0 => 0xC55EFE10 case  1 => 0xC49C9427 case  2 => 0xC6DA2A7E case  3 => 0xC7184049
      case  4 => 0xC25756CC case  5 => 0xC3953CFB case  6 => 0xC1D382A2 case  7 => 0xC011E895
      case  8 => 0xCB4DAFA8 case  9 => 0xCA8FC59F case 10 => 0xC8C97BC6 case 11 => 0xC90B11F1
      case 12 => 0xCC440774 case 13 => 0xCD866D43 case 14 => 0xCFC0D31A case _  => 0xCE02B92D)
    case 12 => (match j
      case  0 => 0x91AF9640 case  1 => 0x906DFC77 case  2 => 0x922B422E case  3 => 0x93E92819
      case  4 => 0x96A63E9C case  5 => 0x976454AB case  6 => 0x9522EAF2 case  7 => 0x94E080C5
      case  8 => 0x9FBCC7F8 case  9 => 0x9E7EADCF case 10 => 0x9C381396 case 11 => 0x9DFA79A1
      case 12 => 0x98B56F24 case 13 => 0x99770513 case 14 => 0x9B31BB4A case _  => 0x9AF3D17D)
    case 13 => (match j
      case  0 => 0x8D893530 case  1 => 0x8C4B5F07 case  2 => 0x8E0DE15E case  3 => 0x8FCF8B69
      case  4 => 0x8A809DEC case  5 => 0x8B42F7DB case  6 => 0x89044982 case  7 => 0x88C623B5
      case  8 => 0x839A6488 case  9 => 0x82580EBF case 10 => 0x801EB0E6 case 11 => 0x81DCDAD1
      case 12 => 0x8493CC54 case 13 => 0x8551A663 case 14 => 0x8717183A case _  => 0x86D5720D)
    case 14 => (match j
      case  0 => 0xA9E2D0A0 case  1 => 0xA820BA97 case  2 => 0xAA6604CE case  3 => 0xABA46EF9
      case  4 => 0xAEEB787C case  5 => 0xAF29124B case  6 => 0xAD6FAC12 case  7 => 0xACADC625
      case  8 => 0xA7F18118 case  9 => 0xA633EB2F case 10 => 0xA4755576 case 11 => 0xA5B73F41
      case 12 => 0xA0F829C4 case 13 => 0xA13A43F3 case 14 => 0xA37CFDAA case _  => 0xA2BE979D)
    case _  => (match j
      case  0 => 0xB5C473D0 case  1 => 0xB40619E7 case  2 => 0xB640A7BE case  3 => 0xB782CD89
      case  4 => 0xB2CDDB0C case  5 => 0xB30FB13B case  6 => 0xB1490F62 case  7 => 0xB08B6555
      case  8 => 0xBBD72268 case  9 => 0xBA15485F case 10 => 0xB853F606 case 11 => 0xB9919C31
      case 12 => 0xBCDE8AB4 case 13 => 0xBD1CE083 case 14 => 0xBF5A5EDA case _  => 0xBE9834ED)
  }

  function Offset56(b: bv8): bv32 {
    var j := b & 15;
    match b >> 4
    case  0 => (match j
      case  0 => 0x00000000 case  1 => 0xB8BC6765 case  2 => 0xAA09C88B case  3 => 0x12B5AFEE
      case  4 => 0x8F629757 case  5 => 0x37DEF032 case  6 => 0x256B5FDC case  7 => 0x9DD738B9
      case  8 => 0xC5B428EF case  9 => 0x7D084F8A case 10 => 0x6FBDE064 case 11 => 0xD7018701
      case 12 => 0x4AD6BFB8 case 13 => 0xF26AD8DD case 14 => 0xE0DF7733 case _  => 0x58631056)
    case  1 => (match j
      case  0 => 0x5019579F case  1 => 0xE8A530FA case  2 => 0xFA109F14 case  3 => 0x42ACF871
      case  4 => 0xDF7BC0C8 case  5 => 0x67C7A7AD case  6 => 0x75720843 case  7 => 0xCDCE6F26
      case  8 => 0x95AD7F70 case  9 => 0x2D111815 case 10 => 0x3FA4B7FB case 11 => 0x8718D09E
      case 12 => 0x1ACFE827 case 13 => 0xA2738F42 case 14 => 0xB0C620AC case _  => 0x087A47C9)
    case  2 => (match j
      case  0 => 0xA032AF3E case  1 => 0x188EC85B case  2 => 0x0A3B67B5 case  3 => 0xB28700D0
      case  4 => 0x2F503869 case  5 => 0x97EC5F0C case  6 => 0x8559F0E2 case  7 => 0x3DE59787
      case  8 => 0x658687D1 case  9 => 0xDD3AE0B4 case 10 => 0xCF8F4F5A case 11 => 0x7733283F
      case 12 => 0xEAE41086 case 13 => 0x525877E3 case 14 => 0x40EDD80D case _  => 0xF851BF68)
    case  3 => (match j
      case  0 => 0xF02BF8A1 case  1 => 0x48979FC4 case  2 => 0x5A22302A case  3 => 0xE29E574F
      case  4 => 0x7F496FF6 case  5 => 0xC7F50893 case  6 => 0xD540A77D case  7 => 0x6DFCC018
      case  8 => 0x359FD04E case  9 => 0x8D23B72B case 10 => 0x9F9618C5 case 11 => 0x272A7FA0
      case 12 => 0xBAFD4719 case 13 => 0x0241207C case 14 => 0x10F48F92 case _  => 0xA848E8F7)
    case  4 => (match j
      case  0 => 0x9B14583D case  1 => 0x23A83F58 case  2 => 0x311D90B6 case  3 => 0x89A1F7D3
      case  4 => 0x1476CF6A case  5 => 0xACCAA80F case  6 => 0xBE7F07E1 case  7 => 0x06C36084
      case  8 => 0x5EA070D2 case  9 => 0xE61C17B7 case 10 => 0xF4A9B859 case 11 => 0x4C15DF3C
      case 12 => 0xD1C2E785 case 13 => 0x697E80E0 case 14 => 0x7BCB2F0E case _  => 0xC377486B)
    case  5 => (match j
      case  0 => 0xCB0D0FA2 case  1 => 0x73B168C7 case  2 => 0x6104C729 case  3 => 0xD9B8A04C
      case  4 => 0x446F98F5 case  5 => 0xFCD3FF90 case  6 => 0xEE66507E case  7 => 0x56DA371B
      case  8 => 0x0EB9274D case  9 => 0xB6054028 case 10 => 0xA4B0EFC6 case 11 => 0x1C0C88A3
      case 12 => 0x81DBB01A case 13 => 0x3967D77F case 14 => 0x2BD27891 case _  => 0x936E1FF4)
    case  6 => (match j
      case  0 => 0x3B26F703 case  1 => 0x839A9066 case  2 => 0x912F3F88 case  3 => 0x299358ED
      case  4 => 0xB4446054 case  5 => 0x0CF80731 case  6 => 0x1E4DA8DF case  7 => 0xA6F1CFBA
      case  8 => 0xFE92DFEC case  9 => 0x462EB889 case 10 => 0x549B1767 case 11 => 0xEC277002
      case 12 => 0x71F048BB case 13 => 0xC94C2FDE case 14 => 0xDBF98030 case _  => 0x6345E755)
    case  7 => (match j
      case  0 => 0x6B3FA09C case  1 => 0xD383C7F9 case  2 => 0xC1366817 case  3 => 0x798A0F72
      case  4 => 0xE45D37CB case  5 => 0x5CE150AE case  6 => 0x4E54FF40 case  7 => 0xF6E89825
      case  8 => 0xAE8B8873 case  9 => 0x1637EF16 case 10 => 0x048240F8 case 11 => 0xBC3E279D
      case 12 => 0x21E91F24 case 13 => 0x99557841 case 14 => 0x8BE0D7AF case _  => 0x335CB0CA)
    case  8 => (match j
      case  0 => 0xED59B63B case  1 => 0x55E5D15E case  2 => 0x47507EB0 case  3 => 0xFFEC19D5
      case  4 => 0x623B216C case  5 => 0xDA874609 case  6 => 0xC832E9E7 case  7 => 0x708E8E82
      case  8 => 0x28ED9ED4 case  9 => 0x9051F9B1 case 10 => 0x82E4565F case 11 => 0x3A58313A
      case 12 => 0xA78F0983 case 13 => 0x1F336EE6 case 14 => 0x0D86C108 case _  => 0xB53AA66D)
    case  9 => (match j
      case  0 => 0xBD40E1A4 case  1 => 0x05FC86C1 case  2 => 0x1749292F case  3 => 0xAFF54E4A
      case  4 => 0x322276F3 case  5 => 0x8A9E1196 case  6 => 0x982BBE78 case  7 => 0x2097D91D
      case  8 => 0x78F4C94B case  9 => 0xC048AE2E case 10 => 0xD2FD01C0 case 11 => 0x6A4166A5
      case 12 => 0xF7965E1C case 13 => 0x4F2A3979 case 14 => 0x5D9F9697 case _  => 0xE523F1F2)
    case 10 => (match j
      case  0 => 0x4D6B1905 case  1 => 0xF5D77E60 case  2 => 0xE762D18E case  3 => 0x5FDEB6EB
      case  4 => 0xC2098E52 case  5 => 0x7AB5E937 case  6 => 0x680046D9 case  7 => 0xD0BC21BC
      case  8 => 0x88DF31EA case  9 => 0x3063568F case 10 => 0x22D6F961 case 11 => 0x9A6A9E04
      case 12 => 0x07BDA6BD case 13 => 0xBF01C1D8 case 14 => 0xADB46E36 case _  => 0x15080953)
    case 11 => (match j
      case  0 => 0x1D724E9A case  1 => 0xA5CE29FF case  2 => 0xB77B8611 case  3 => 0x0FC7E174
      case  4 => 0x9210D9CD case  5 => 0x2AACBEA8 case  6 => 0x38191146 case  7 => 0x80A57623
      case  8 => 0xD8C66675 case  9 => 0x607A0110 case 10 => 0x72CFAEFE case 11 => 0xCA73C99B
      case 12 => 0x57A4F122 case 13 => 0xEF189647 case 14 => 0xFDAD39A9 case _  => 0x45115ECC)
    case 12 => (match j
      case  0 => 0x764DEE06 case  1 => 0xCEF18963 case  2 => 0xDC44268D case  3 => 0x64F841E8
      case  4 => 0xF92F7951 case  5 => 0x41931E34 case  6 => 0x5326B1DA case  7 => 0xEB9AD6BF
      case  8 => 0xB3F9C6E9 case  9 => 0x0B45A18C case 10 => 0x19F00E62 case 11 => 0xA14C6907
      case 12 => 0x3C9B51BE case 13 => 0x842736DB case 14 => 0x96929935 case _  => 0x2E2EFE50)
    case 13 => (match j
      case  0 => 0x2654B999 case  1 => 0x9EE8DEFC case  2 => 0x8C5D7112 case  3 => 0x34E11677
      case  4 => 0xA9362ECE case  5 => 0x118A49AB case  6 => 0x033FE645 case  7 => 0xBB838120
      case  8 => 0xE3E09176 case  9 => 0x5B5CF613 case 10 => 0x49E959FD case 11 => 0xF1553E98
      case 12 => 0x6C820621 case 13 => 0xD43E6144 case 14 => 0xC68BCEAA case _  => 0x7E37A9CF)
    case 14 => (match j
      case  0 => 0xD67F4138 case  1 => 0x6EC3265D case  2 => 0x7C7689B3 case  3 => 0xC4CAEED6
      case  4 => 0x591DD66F case  5 => 0xE1A1B10A case  6 => 0xF3141EE4 case  7 => 0x4BA87981
      case  8 => 0x13CB69D7 case  9 => 0xAB770EB2 case 10 => 0xB9C2A15C case 11 => 0x017EC639
      case 12 => 0x9CA9FE80 case 13 => 0x241599E5 case 14 => 0x36A0360B case _  => 0x8E1C516E)
    case _  => (match j
      case  0 => 0x866616A7 case  1 => 0x3EDA71C2 case  2 => 0x2C6FDE2C case  3 => 0x94D3B949
      case  4 => 0x090481F0 case  5 => 0xB1B8E695 case  6 => 0xA30D497B case  7 => 0x1BB12E1E
      case  8 => 0x43D23E48 case  9 => 0xFB6E592D case 10 => 0xE9DBF6C3 case 11 => 0x516791A6
      case 12 => 0xCCB0A91F case 13 => 0x740CCE7A case 14 => 0x66B96194 case _  => 0xDE0506F1)
  }

  function Offset64(b: bv8): bv32 {
    var j := b & 15;
    match b >> 4
    case  0 => (match j
      case  0 => 0x00000000 case  1 => 0x3D6029B0 case  2 => 0x7AC05360 case  3 => 0x47A07AD0
      case  4 => 0xF580A6C0 case  5 => 0xC8E08F70 case  6 => 0x8F40F5A0 case  7 => 0xB220DC10
      case  8 => 0x30704BC1 case  9 => 0x0D106271 case 10 => 0x4AB018A1 case 11 => 0x77D03111
      case 12 => 0xC5F0ED01 case 13 => 0xF890C4B1 case 14 => 0xBF30BE61 case _  => 0x825097D1)
    case  1 => (match j
      case  0 => 0x60E09782 case  1 => 0x5D80BE32 case  2 => 0x1A20C4E2 case  3 => 0x2740ED52
      case  4 => 0x95603142 case  5 => 0xA80018F2 case  6 => 0xEFA06222 case  7 => 0xD2C04B92
      case  8 => 0x5090DC43 case  9 => 0x6DF0F5F3 case 10 => 0x2A508F23 case 11 => 0x1730A693
      case 12 => 0xA5107A83 case 13 => 0x98705333 case 14 => 0xDFD029E3 case _  => 0xE2B00053)
    case  2 => (match j
      case  0 => 0xC1C12F04 case  1 => 0xFCA106B4 case  2 => 0xBB017C64 case  3 => 0x866155D4
      case  4 => 0x344189C4 case  5 => 0x0921A074 case  6 => 0x4E81DAA4 case  7 => 0x73E1F314
      case  8 => 0xF1B164C5 case  9 => 0xCCD14D75 case 10 => 0x8B7137A5 case 11 => 0xB6111E15
      case 12 => 0x0431C205 case 13 => 0x3951EBB5 case 14 => 0x7EF19165 case _  => 0x4391B8D5)
    case  3 => (match j
      case  0 => 0xA121B886 case  1 => 0x9C419136 case  2 => 0xDBE1EBE6 case  3 => 0xE681C256
      case  4 => 0x54A11E46 case  5 => 0x69C137F6 case  6 => 0x2E614D26 case  7 => 0x13016496
      case  8 => 0x9151F347 case  9 => 0xAC31DAF7 case 10 => 0xEB91A027 case 11 => 0xD6F18997
      case 12 => 0x64D15587 case 13 => 0x59B17C37 case 14 => 0x1E1106E7 case _  => 0x23712F57)
    case  4 => (match j
      case  0 => 0x58F35849 case  1 => 0x659371F9 case  2 => 0x22330B29 case  3 => 0x1F532299
      case  4 => 0xAD73FE89 case  5 => 0x9013D739 case  6 => 0xD7B3ADE9 case  7 => 0xEAD38459
      case  8 => 0x68831388 case  9 => 0x55E33A38 case 10 => 0x124340E8 case 11 => 0x2F236958
      case 12 => 0x9D03B548 case 13 => 0xA0639CF8 case 14 => 0xE7C3E628 case _  => 0xDAA3CF98)
    case  5 => (match j
      case  0 => 0x3813CFCB case  1 => 0x0573E67B case  2 => 0x42D39CAB case  3 => 0x7FB3B51B
      case  4 => 0xCD93690B case  5 => 0xF0F340BB case  6 => 0xB7533A6B case  7 => 0x8A3313DB
      case  8 => 0x0863840A case  9 => 0x3503ADBA case 10 => 0x72A3D76A case 11 => 0x4FC3FEDA
      case 12 => 0xFDE322CA case 13 => 0xC0830B7A case 14 => 0x872371AA case _  => 0xBA43581A)
    case  6 => (match j
      case  0 => 0x9932774D case  1 => 0xA4525EFD case  2 => 0xE3F2242D case  3 => 0xDE920D9D
      case  4 => 0x6CB2D18D case  5 => 0x51D2F83D case  6 => 0x167282ED case  7 => 0x2B12AB5D
      case  8 => 0xA9423C8C case  9 => 0x9422153C case 10 => 0xD3826FEC case 11 => 0xEEE2465C
      case 12 => 0x5CC29A4C case 13 => 0x61A2B3FC case 14 => 0x2602C92C case _  => 0x1B62E09C)
    case  7 => (match j
      case  0 => 0xF9D2E0CF case  1 => 0xC4B2C97F case  2 => 0x8312B3AF case  3 => 0xBE729A1F
      case  4 => 0x0C52460F case  5 => 0x31326FBF case  6 => 0x7692156F case  7 => 0x4BF23CDF
      case  8 => 0xC9A2AB0E case  9 => 0xF4C282BE case 10 => 0xB362F86E case 11 => 0x8E02D1DE
      case 12 => 0x3C220DCE case 13 => 0x0142247E case 14 => 0x46E25EAE case _  => 0x7B82771E)
    case  8 => (match j
      case  0 => 0xB1E6B092 case  1 => 0x8C869922 case  2 => 0xCB26E3F2 case  3 => 0xF646CA42
      case  4 => 0x44661652 case  5 => 0x79063FE2 case  6 => 0x3EA64532 case  7 => 0x03C66C82
      case  8 => 0x8196FB53 case  9 => 0xBCF6D2E3 case 10 => 0xFB56A833 case 11 => 0xC6368183
      case 12 => 0x74165D93 case 13 => 0x49767423 case 14 => 0x0ED60EF3 case _  => 0x33B62743)
    case  9 => (match j
      case  0 => 0xD1062710 case  1 => 0xEC660EA0 case  2 => 0xABC67470 case  3 => 0x96A65DC0
      case  4 => 0x248681D0 case  5 => 0x19E6A860 case  6 => 0x5E46D2B0 case  7 => 0x6326FB00
      case  8 => 0xE1766CD1 case  9 => 0xDC164561 case 10 => 0x9BB63FB1 case 11 => 0xA6D61601
      case 12 => 0x14F6CA11 case 13 => 0x2996E3A1 case 14 => 0x6E369971 case _  => 0x5356B0C1)
    case 10 => (match j
      case  0 => 0x70279F96 case  1 => 0x4D47B626 case  2 => 0x0AE7CCF6 case  3 => 0x3787E546
      case  4 => 0x85A73956 case  5 => 0xB8C710E6 case  6 => 0xFF676A36 case  7 => 0xC2074386
      case  8 => 0x4057D457 case  9 => 0x7D37FDE7 case 10 => 0x3A978737 case 11 => 0x07F7AE87
      case 12 => 0xB5D77297 case 13 => 0x88B75B27 case 14 => 0xCF1721F7 case _  => 0xF2770847)
    case 11 => (match j
      case  0 => 0x10C70814 case  1 => 0x2DA721A4 case  2 => 0x6A075B74 case  3 => 0x576772C4
      case  4 => 0xE547AED4 case  5 => 0xD8278764 case  6 => 0x9F87FDB4 case  7 => 0xA2E7D404
      case  8 => 0x20B743D5 case  9 => 0x1DD76A65 case 10 => 0x5A7710B5 case 11 => 0x67173905
      case 12 => 0xD537E515 case 13 => 0xE857CCA5 case 14 => 0xAFF7B675 case _  => 0x92979FC5)
    case 12 => (match j
      case  0 => 0xE915E8DB case  1 => 0xD475C16B case  2 => 0x93D5BBBB case  3 => 0xAEB5920B
      case  4 => 0x1C954E1B case  5 => 0x21F567AB case  6 => 0x66551D7B case  7 => 0x5B3534CB
      case  8 => 0xD965A31A case  9 => 0xE4058AAA case 10 => 0xA3A5F07A case 11 => 0x9EC5D9CA
      case 12 => 0x2CE505DA case 13 => 0x11852C6A case 14 => 0x562556BA case _  => 0x6B457F0A)
    case 13 => (match j
      case  0 => 0x89F57F59 case  1 => 0xB49556E9 case  2 => 0xF3352C39 case  3 => 0xCE550589
      case  4 => 0x7C75D999 case  5 => 0x4115F029 case  6 => 0x06B58AF9 case  7 => 0x3BD5A349
      case  8 => 0xB9853498 case  9 => 0x84E51D28 case 10 => 0xC34567F8 case 11 => 0xFE254E48
      case 12 => 0x4C059258 case 13 => 0x7165BBE8 case 14 => 0x36C5C138 case _  => 0x0BA5E888)
    case 14 => (match j
      case  0 => 0x28D4C7DF case  1 => 0x15B4EE6F case  2 => 0x521494BF case  3 => 0x6F74BD0F
      case  4 => 0xDD54611F case  5 => 0xE03448AF case  6 => 0xA794327F case  7 => 0x9AF41BCF
      case  8 => 0x18A48C1E case  9 => 0x25C4A5AE case 10 => 0x6264DF7E case 11 => 0x5F04F6CE
      case 12 => 0xED242ADE case 13 => 0xD044036E case 14 => 0x97E479BE case _  => 0xAA84500E)
    case _  => (match j
      case  0 => 0x4834505D case  1 => 0x755479ED case  2 => 0x32F4033D case  3 => 0x0F942A8D
      case  4 => 0xBDB4F69D case  5 => 0x80D4DF2D case  6 => 0xC774A5FD case  7 => 0xFA148C4D
      case  8 => 0x78441B9C case  9 => 0x4524322C case 10 => 0x028448FC case 11 => 0x3FE4614C
      case 12 => 0x8DC4BD5C case 13 => 0xB0A494EC case 14 => 0xF704EE3C case _  => 0xCA64C78C)
  }

  function Offset72(b: bv8): bv32 {
    var j := b & 15;
    match b >> 4
    case  0 => (match j
      case  0 => 0x00000000 case  1 => 0xCB5CD3A5 case  2 => 0x4DC8A10B case  3 => 0x869472AE
      case  4 => 0x9B914216 case  5 => 0x50CD91B3 case  6 => 0xD659E31D case  7 => 0x1D0530B8
      case  8 => 0xEC53826D case  9 => 0x270F51C8 case 10 => 0xA19B2366 case 11 => 0x6AC7F0C3
      case 12 => 0x77C2C07B case 13 => 0xBC9E13DE case 14 => 0x3A0A6170 case _  => 0xF156B2D5)
    case  1 => (match j
      case  0 => 0x03D6029B case  1 => 0xC88AD13E case  2 => 0x4E1EA390 case  3 => 0x85427035
      case  4 => 0x9847408D case  5 => 0x531B9328 case  6 => 0xD58FE186 case  7 => 0x1ED33223
      case  8 => 0xEF8580F6 case  9 => 0x24D95353 case 10 => 0xA24D21FD case 11 => 0x6911F258
      case 12 => 0x7414C2E0 case 13 => 0xBF481145 case 14 => 0x39DC63EB case _  => 0xF280B04E)
    case  2 => (match j
      case  0 => 0x07AC0536 case  1 => 0xCCF0D693 case  2 => 0x4A64A43D case  3 => 0x81387798
      case  4 => 0x9C3D4720 case  5 => 0x57619485 case  6 => 0xD1F5E62B case  7 => 0x1AA9358E
      case  8 => 0xEBFF875B case  9 => 0x20A354FE case 10 => 0xA6372650 case 11 => 0x6D6BF5F5
      case 12 => 0x706EC54D case 13 => 0xBB3216E8 case 14 => 0x3DA66446 case _  => 0xF6FAB7E3)
    case  3 => (match j
      case  0 => 0x047A07AD case  1 => 0xCF26D408 case  2 => 0x49B2A6A6 case  3 => 0x82EE7503
      case  4 => 0x9FEB45BB case  5 => 0x54B7961E case  6 => 0xD223E4B0 case  7 => 0x197F3715
      case  8 => 0xE82985C0 case  9 => 0x23755665 case 10 => 0xA5E124CB case 11 => 0x6EBDF76E
      case 12 => 0x73B8C7D6 case 13 => 0xB8E41473 case 14 => 0x3E7066DD case _  => 0xF52CB578)
    case  4 => (match j
      case  0 => 0x0F580A6C case  1 => 0xC404D9C9 case  2 => 0x4290AB67 case  3 => 0x89CC78C2
      case  4 => 0x94C9487A case  5 => 0x5F959BDF case  6 => 0xD901E971 case  7 => 0x125D3AD4
      case  8 => 0xE30B8801 case  9 => 0x28575BA4 case 10 => 0xAEC3290A case 11 => 0x659FFAAF
      case 12 => 0x789ACA17 case 13 => 0xB3C619B2 case 14 => 0x35526B1C case _  => 0xFE0EB8B9)
    case  5 => (match j
      case  0 => 0x0C8E08F7 case  1 => 0xC7D2DB52 case  2 => 0x4146A9FC case  3 => 0x8A1A7A59
      case  4 => 0x971F4AE1 case  5 => 0x5C439944 case  6 => 0xDAD7EBEA case  7 => 0x118B384F
      case  8 => 0xE0DD8A9A case  9 => 0x2B81593F case 10 => 0xAD152B91 case 11 => 0x6649F834
      case 12 => 0x7B4CC88C case 13 => 0xB0101B29 case 14 => 0x36846987 case _  => 0xFDD8BA22)
    case  6 => (match j
      case  0 => 0x08F40F5A case  1 => 0xC3A8DCFF case  2 => 0x453CAE51 case  3 => 0x8E607DF4
      case  4 => 0x93654D4C case  5 => 0x58399EE9 case  6 => 0xDEADEC47 case  7 => 0x15F13FE2
      case  8 => 0xE4A78D37 case  9 => 0x2FFB5E92 case 10 => 0xA96F2C3C case 11 => 0x6233FF99
      case 12 => 0x7F36CF21 case 13 => 0xB46A1C84 case 14 => 0x32FE6E2A case _  => 0xF9A2BD8F)
    case  7 => (match j
      case  0 => 0x0B220DC1 case  1 => 0xC07EDE64 case  2 => 0x46EAACCA case  3 => 0x8DB67F6F
      case  4 => 0x90B34FD7 case  5 => 0x5BEF9C72 case  6 => 0xDD7BEEDC case  7 => 0x16273D79
      case  8 => 0xE7718FAC case  9 => 0x2C2D5C09 case 10 => 0xAAB92EA7 case 11 => 0x61E5FD02
      case 12 => 0x7CE0CDBA case 13 => 0xB7BC1E1F case 14 => 0x31286CB1 case _  => 0xFA74BF14)
    case  8 => (match j
      case  0 => 0x1EB014D8 case  1 => 0xD5ECC77D case  2 => 0x5378B5D3 case  3 => 0x98246676
      case  4 => 0x852156CE case  5 => 0x4E7D856B case  6 => 0xC8E9F7C5 case  7 => 0x03B52460
      case  8 => 0xF2E396B5 case  9 => 0x39BF4510 case 10 => 0xBF2B37BE case 11 => 0x7477E41B
      case 12 => 0x6972D4A3 case 13 => 0xA22E0706 case 14 => 0x24BA75A8 case _  => 0xEFE6A60D)
    case  9 => (match j
      case  0 => 0x1D661643 case  1 => 0xD63AC5E6 case  2 => 0x50AEB748 case  3 => 0x9BF264ED
      case  4 => 0x86F75455 case  5 => 0x4DAB87F0 case  6 => 0xCB3FF55E case  7 => 0x006326FB
      case  8 => 0xF135942E case  9 => 0x3A69478B case 10 => 0xBCFD3525 case 11 => 0x77A1E680
      case 12 => 0x6AA4D638 case 13 => 0xA1F8059D case 14 => 0x276C7733 case _  => 0xEC30A496)
    case 10 => (match j
      case  0 => 0x191C11EE case  1 => 0xD240C24B case  2 => 0x54D4B0E5 case  3 => 0x9F886340
      case  4 => 0x828D53F8 case  5 => 0x49D1805D case  6 => 0xCF45F2F3 case  7 => 0x04192156
      case  8 => 0xF54F9383 case  9 => 0x3E134026 case 10 => 0xB8873288 case 11 => 0x73DBE12D
      case 12 => 0x6EDED195 case 13 => 0xA5820230 case 14 => 0x2316709E case _  => 0xE84AA33B)
    case 11 => (match j
      case  0 => 0x1ACA1375 case  1 => 0xD196C0D0 case  2 => 0x5702B27E case  3 => 0x9C5E61DB
      case  4 => 0x815B5163 case  5 => 0x4A0782C6 case  6 => 0xCC93F068 case  7 => 0x07CF23CD
      case  8 => 0xF6999118 case  9 => 0x3DC542BD case 10 => 0xBB513013 case 11 => 0x700DE3B6
      case 12 => 0x6D08D30E case 13 => 0xA65400AB case 14 => 0x20C07205 case _  => 0xEB9CA1A0)
    case 12 => (match j
      case  0 => 0x11E81EB4 case  1 => 0xDAB4CD11 case  2 => 0x5C20BFBF case  3 => 0x977C6C1A
      case  4 => 0x8A795CA2 case  5 => 0x41258F07 case  6 => 0xC7B1FDA9 case  7 => 0x0CED2E0C
      case  8 => 0xFDBB9CD9 case  9 => 0x36E74F7C case 10 => 0xB0733DD2 case 11 => 0x7B2FEE77
      case 12 => 0x662ADECF case 13 => 0xAD760D6A case 14 => 0x2BE27FC4 case _  => 0xE0BEAC61)
    case 13 => (match j
      case  0 => 0x123E1C2F case  1 => 0xD962CF8A case  2 => 0x5FF6BD24 case  3 => 0x94AA6E81
      case  4 => 0x89AF5E39 case  5 => 0x42F38D9C case  6 => 0xC467FF32 case  7 => 0x0F3B2C97
      case  8 => 0xFE6D9E42 case  9 => 0x35314DE7 case 10 => 0xB3A53F49 case 11 => 0x78F9ECEC
      case 12 => 0x65FCDC54 case 13 => 0xAEA00FF1 case 14 => 0x28347D5F case _  => 0xE368AEFA)
    case 14 => (match j
      case  0 => 0x16441B82 case  1 => 0xDD18C827 case  2 => 0x5B8CBA89 case  3 => 0x90D0692C
      case  4 => 0x8DD55994 case  5 => 0x46898A31 case  6 => 0xC01DF89F case  7 => 0x0B412B3A
      case  8 => 0xFA1799EF case  9 => 0x314B4A4A case 10 => 0xB7DF38E4 case 11 => 0x7C83EB41
      case 12 => 0x6186DBF9 case 13 => 0xAADA085C case 14 => 0x2C4E7AF2 case _  => 0xE712A957)
    case _  => (match j
      case  0 => 0x15921919 case  1 => 0xDECECABC case  2 => 0x585AB812 case  3 => 0x93066BB7
      case  4 => 0x8E035B0F case  5 => 0x455F88AA case  6 => 0xC3CBFA04 case  7 => 0x089729A1
      case  8 => 0xF9C19B74 case  9 => 0x329D48D1 case 10 => 0xB4093A7F case 11 => 0x7F55E9DA
      case 12 => 0x6250D962 case 13 => 0xA90C0AC7 case 14 => 0x2F987869 case _  => 0xE4C4ABCC)
  }

  function Offset80(b: bv8): bv32 {
    var j := b & 15;
    match b >> 4
    case  0 => (match j
      case  0 => 0x00000000 case  1 => 0xA6770BB4 case  2 => 0x979F1129 case  3 => 0x31E81A9D
      case  4 => 0xF44F2413 case  5 => 0x52382FA7 case  6 => 0x63D0353A case  7 => 0xC5A73E8E
      case  8 => 0x33EF4E67 case  9 => 0x959845D3 case 10 => 0xA4705F4E case 11 => 0x020754FA
      case 12 => 0xC7A06A74 case 13 => 0x61D761C0 case 14 => 0x503F7B5D case _  => 0xF64870E9)
    case  1 => (match j
      case  0 => 0x67DE9CCE case  1 => 0xC1A9977A case  2 => 0xF0418DE7 case  3 => 0x56368653
      case  4 => 0x9391B8DD case  5 => 0x35E6B369 case  6 => 0x040EA9F4 case  7 => 0xA279A240
      case  8 => 0x5431D2A9 case  9 => 0xF246D91D case 10 => 0xC3AEC380 case 11 => 0x65D9C834
      case 12 => 0xA07EF6BA case 13 => 0x0609FD0E case 14 => 0x37E1E793 case _  => 0x9196EC27)
    case  2 => (match j
      case  0 => 0xCFBD399C case  1 => 0x69CA3228 case  2 => 0x582228B5 case  3 => 0xFE552301
      case  4 => 0x3BF21D8F case  5 => 0x9D85163B case  6 => 0xAC6D0CA6 case  7 => 0x0A1A0712
      case  8 => 0xFC5277FB case  9 => 0x5A257C4F case 10 => 0x6BCD66D2 case 11 => 0xCDBA6D66
      case 12 => 0x081D53E8 case 13 => 0xAE6A585C case 14 => 0x9F8242C1 case _  => 0x39F54975)
    case  3 => (match j
      case  0 => 0xA863A552 case  1 => 0x0E14AEE6 case  2 => 0x3FFCB47B case  3 => 0x998BBFCF
      case  4 => 0x5C2C8141 case  5 => 0xFA5B8AF5 case  6 => 0xCBB39068 case  7 => 0x6DC49BDC
      case  8 => 0x9B8CEB35 case  9 => 0x3DFBE081 case 10 => 0x0C13FA1C case 11 => 0xAA64F1A8
      case 12 => 0x6FC3CF26 case 13 => 0xC9B4C492 case 14 => 0xF85CDE0F case _  => 0x5E2BD5BB)
    case  4 => (match j
      case  0 => 0x440B7579 case  1 => 0xE27C7ECD case  2 => 0xD3946450 case  3 => 0x75E36FE4
      case  4 => 0xB044516A case  5 => 0x16335ADE case  6 => 0x27DB4043 case  7 => 0x81AC4BF7
      case  8 => 0x77E43B1E case  9 => 0xD19330AA case 10 => 0xE07B2A37 case 11 => 0x460C2183
      case 12 => 0x83AB1F0D case 13 => 0x25DC14B9 case 14 => 0x14340E24 case _  => 0xB2430590)
    case  5 => (match j
      case  0 => 0x23D5E9B7 case  1 => 0x85A2E203 case  2 => 0xB44AF89E case  3 => 0x123DF32A
      case  4 => 0xD79ACDA4 case  5 => 0x71EDC610 case  6 => 0x4005DC8D case  7 => 0xE672D739
      case  8 => 0x103AA7D0 case  9 => 0xB64DAC64 case 10 => 0x87A5B6F9 case 11 => 0x21D2BD4D
      case 12 => 0xE47583C3 case 13 => 0x42028877 case 14 => 0x73EA92EA case _  => 0xD59D995E)
    case  6 => (match j
      case  0 => 0x8BB64CE5 case  1 => 0x2DC14751 case  2 => 0x1C295DCC case  3 => 0xBA5E5678
      case  4 => 0x7FF968F6 case  5 => 0xD98E6342 case  6 => 0xE86679DF case  7 => 0x4E11726B
      case  8 => 0xB8590282 case  9 => 0x1E2E0936 case 10 => 0x2FC613AB case 11 => 0x89B1181F
      case 12 => 0x4C162691 case 13 => 0xEA612D25 case 14 => 0xDB8937B8 case _  => 0x7DFE3C0C)
    case  7 => (match j
      case  0 => 0xEC68D02B case  1 => 0x4A1FDB9F case  2 => 0x7BF7C102 case  3 => 0xDD80CAB6
      case  4 => 0x1827F438 case  5 => 0xBE50FF8C case  6 => 0x8FB8E511 case  7 => 0x29CFEEA5
      case  8 => 0xDF879E4C case  9 => 0x79F095F8 case 10 => 0x48188F65 case 11 => 0xEE6F84D1
      case 12 => 0x2BC8BA5F case 13 => 0x8DBFB1EB case 14 => 0xBC57AB76 case _  => 0x1A20A0C2)
    case  8 => (match j
      case  0 => 0x8816EAF2 case  1 => 0x2E61E146 case  2 => 0x1F89FBDB case  3 => 0xB9FEF06F
      case  4 => 0x7C59CEE1 case  5 => 0xDA2EC555 case  6 => 0xEBC6DFC8 case  7 => 0x4DB1D47C
      case  8 => 0xBBF9A495 case  9 => 0x1D8EAF21 case 10 => 0x2C66B5BC case 11 => 0x8A11BE08
      case 12 => 0x4FB68086 case 13 => 0xE9C18B32 case 14 => 0xD82991AF case _  => 0x7E5E9A1B)
    case  9 => (match j
      case  0 => 0xEFC8763C case  1 => 0x49BF7D88 case  2 => 0x78576715 case  3 => 0xDE206CA1
      case  4 => 0x1B87522F case  5 => 0xBDF0599B case  6 => 0x8C184306 case  7 => 0x2A6F48B2
      case  8 => 0xDC27385B case  9 => 0x7A5033EF case 10 => 0x4BB82972 case 11 => 0xEDCF22C6
      case 12 => 0x28681C48 case 13 => 0x8E1F17FC case 14 => 0xBFF70D61 case _  => 0x198006D5)
    case 10 => (match j
      case  0 => 0x47ABD36E case  1 => 0xE1DCD8DA case  2 => 0xD034C247 case  3 => 0x7643C9F3
      case  4 => 0xB3E4F77D case  5 => 0x1593FCC9 case  6 => 0x247BE654 case  7 => 0x820CEDE0
      case  8 => 0x74449D09 case  9 => 0xD23396BD case 10 => 0xE3DB8C20 case 11 => 0x45AC8794
      case 12 => 0x800BB91A case 13 => 0x267CB2AE case 14 => 0x1794A833 case _  => 0xB1E3A387)
    case 11 => (match j
      case  0 => 0x20754FA0 case  1 => 0x86024414 case  2 => 0xB7EA5E89 case  3 => 0x119D553D
      case  4 => 0xD43A6BB3 case  5 => 0x724D6007 case  6 => 0x43A57A9A case  7 => 0xE5D2712E
      case  8 => 0x139A01C7 case  9 => 0xB5ED0A73 case 10 => 0x840510EE case 11 => 0x22721B5A
      case 12 => 0xE7D525D4 case 13 => 0x41A22E60 case 14 => 0x704A34FD case _  => 0xD63D3F49)
    case 12 => (match j
      case  0 => 0xCC1D9F8B case  1 => 0x6A6A943F case  2 => 0x5B828EA2 case  3 => 0xFDF58516
      case  4 => 0x3852BB98 case  5 => 0x9E25B02C case  6 => 0xAFCDAAB1 case  7 => 0x09BAA105
      case  8 => 0xFFF2D1EC case  9 => 0x5985DA58 case 10 => 0x686DC0C5 case 11 => 0xCE1ACB71
      case 12 => 0x0BBDF5FF case 13 => 0xADCAFE4B case 14 => 0x9C22E4D6 case _  => 0x3A55EF62)
    case 13 => (match j
      case  0 => 0xABC30345 case  1 => 0x0DB408F1 case  2 => 0x3C5C126C case  3 => 0x9A2B19D8
      case  4 => 0x5F8C2756 case  5 => 0xF9FB2CE2 case  6 => 0xC813367F case  7 => 0x6E643DCB
      case  8 => 0x982C4D22 case  9 => 0x3E5B4696 case 10 => 0x0FB35C0B case 11 => 0xA9C457BF
      case 12 => 0x6C636931 case 13 => 0xCA146285 case 14 => 0xFBFC7818 case _  => 0x5D8B73AC)
    case 14 => (match j
      case  0 => 0x03A0A617 case  1 => 0xA5D7ADA3 case  2 => 0x943FB73E case  3 => 0x3248BC8A
      case  4 => 0xF7EF8204 case  5 => 0x519889B0 case  6 => 0x6070932D case  7 => 0xC6079899
      case  8 => 0x304FE870 case  9 => 0x9638E3C4 case 10 => 0xA7D0F959 case 11 => 0x01A7F2ED
      case 12 => 0xC400CC63 case 13 => 0x6277C7D7 case 14 => 0x539FDD4A case _  => 0xF5E8D6FE)
    case _  => (match j
      case  0 => 0x647E3AD9 case  1 => 0xC209316D case  2 => 0xF3E12BF0 case  3 => 0x55962044
      case  4 => 0x90311ECA case  5 => 0x3646157E case  6 => 0x07AE0FE3 case  7 => 0xA1D90457
      case  8 => 0x579174BE case  9 => 0xF1E67F0A case 10 => 0xC00E6597 case 11 => 0x66796E23
      case 12 => 0xA3DE50AD case 13 => 0x05A95B19 case 14 => 0x34414184 case _  => 0x92364A30)
  }

  function Offset88(b: bv8): bv32 {
    var j := b & 15;
    match b >> 4
    case  0 => (match j
      case  0 => 0x00000000 case  1 => 0xCCAA009E case  2 => 0x4225077D case  3 => 0x8E8F07E3
      case  4 => 0x844A0EFA case  5 => 0x48E00E64 case  6 => 0xC66F0987 case  7 => 0x0AC50919
      case  8 => 0xD3E51BB5 case  9 => 0x1F4F1B2B case 10 => 0x91C01CC8 case 11 => 0x5D6A1C56
      case 12 => 0x57AF154F case 13 => 0x9B0515D1 case 14 => 0x158A1232 case _  => 0xD92012AC)
    case  1 => (match j
      case  0 => 0x7CBB312B case  1 => 0xB01131B5 case  2 => 0x3E9E3656 case  3 => 0xF23436C8
      case  4 => 0xF8F13FD1 case  5 => 0x345B3F4F case  6 => 0xBAD438AC case  7 => 0x767E3832
      case  8 => 0xAF5E2A9E case  9 => 0x63F42A00 case 10 => 0xED7B2DE3 case 11 => 0x21D12D7D
      case 12 => 0x2B142464 case 13 => 0xE7BE24FA case 14 => 0x69312319 case _  => 0xA59B2387)
    case  2 => (match j
      case  0 => 0xF9766256 case  1 => 0x35DC62C8 case  2 => 0xBB53652B case  3 => 0x77F965B5
      case  4 => 0x7D3C6CAC case  5 => 0xB1966C32 case  6 => 0x3F196BD1 case  7 => 0xF3B36B4F
      case  8 => 0x2A9379E3 case  9 => 0xE639797D case 10 => 0x68B67E9E case 11 => 0xA41C7E00
      case 12 => 0xAED97719 case 13 => 0x62737787 case 14 => 0xECFC7064 case _  => 0x205670FA)
    case  3 => (match j
      case  0 => 0x85CD537D case  1 => 0x496753E3 case  2 => 0xC7E85400 case  3 => 0x0B42549E
      case  4 => 0x01875D87 case  5 => 0xCD2D5D19 case  6 => 0x43A25AFA case  7 => 0x8F085A64
      case  8 => 0x562848C8 case  9 => 0x9A824856 case 10 => 0x140D4FB5 case 11 => 0xD8A74F2B
      case 12 => 0xD2624632 case 13 => 0x1EC846AC case 14 => 0x9047414F case _  => 0x5CED41D1)
    case  4 => (match j
      case  0 => 0x299DC2ED case  1 => 0xE537C273 case  2 => 0x6BB8C590 case  3 => 0xA712C50E
      case  4 => 0xADD7CC17 case  5 => 0x617DCC89 case  6 => 0xEFF2CB6A case  7 => 0x2358CBF4
      case  8 => 0xFA78D958 case  9 => 0x36D2D9C6 case 10 => 0xB85DDE25 case 11 => 0x74F7DEBB
      case 12 => 0x7E32D7A2 case 13 => 0xB298D73C case 14 => 0x3C17D0DF case _  => 0xF0BDD041)
    case  5 => (match j
      case  0 => 0x5526F3C6 case  1 => 0x998CF358 case  2 => 0x1703F4BB case  3 => 0xDBA9F425
      case  4 => 0xD16CFD3C case  5 => 0x1DC6FDA2 case  6 => 0x9349FA41 case  7 => 0x5FE3FADF
      case  8 => 0x86C3E873 case  9 => 0x4A69E8ED case 10 => 0xC4E6EF0E case 11 => 0x084CEF90
      case 12 => 0x0289E689 case 13 => 0xCE23E617 case 14 => 0x40ACE1F4 case _  => 0x8C06E16A)
    case  6 => (match j
      case  0 => 0xD0EBA0BB case  1 => 0x1C41A025 case  2 => 0x92CEA7C6 case  3 => 0x5E64A758
      case  4 => 0x54A1AE41 case  5 => 0x980BAEDF case  6 => 0x1684A93C case  7 => 0xDA2EA9A2
      case  8 => 0x030EBB0E case  9 => 0xCFA4BB90 case 10 => 0x412BBC73 case 11 => 0x8D81BCED
      case 12 => 0x8744B5F4 case 13 => 0x4BEEB56A case 14 => 0xC561B289 case _  => 0x09CBB217)
    case  7 => (match j
      case  0 => 0xAC509190 case  1 => 0x60FA910E case  2 => 0xEE7596ED case  3 => 0x22DF9673
      case  4 => 0x281A9F6A case  5 => 0xE4B09FF4 case  6 => 0x6A3F9817 case  7 => 0xA6959889
      case  8 => 0x7FB58A25 case  9 => 0xB31F8ABB case 10 => 0x3D908D58 case 11 => 0xF13A8DC6
      case 12 => 0xFBFF84DF case 13 => 0x37558441 case 14 => 0xB9DA83A2 case _  => 0x7570833C)
    case  8 => (match j
      case  0 => 0x533B85DA case  1 => 0x9F918544 case  2 => 0x111E82A7 case  3 => 0xDDB48239
      case  4 => 0xD7718B20 case  5 => 0x1BDB8BBE case  6 => 0x95548C5D case  7 => 0x59FE8CC3
      case  8 => 0x80DE9E6F case  9 => 0x4C749EF1 case 10 => 0xC2FB9912 case 11 => 0x0E51998C
      case 12 => 0x04949095 case 13 => 0xC83E900B case 14 => 0x46B197E8 case _  => 0x8A1B9776)
    case  9 => (match j
      case  0 => 0x2F80B4F1 case  1 => 0xE32AB46F case  2 => 0x6DA5B38C case  3 => 0xA10FB312
      case  4 => 0xABCABA0B case  5 => 0x6760BA95 case  6 => 0xE9EFBD76 case  7 => 0x2545BDE8
      case  8 => 0xFC65AF44 case  9 => 0x30CFAFDA case 10 => 0xBE40A839 case 11 => 0x72EAA8A7
      case 12 => 0x782FA1BE case 13 => 0xB485A120 case 14 => 0x3A0AA6C3 case _  => 0xF6A0A65D)
    case 10 => (match j
      case  0 => 0xAA4DE78C case  1 => 0x66E7E712 case  2 => 0xE868E0F1 case  3 => 0x24C2E06F
      case  4 => 0x2E07E976 case  5 => 0xE2ADE9E8 case  6 => 0x6C22EE0B case  7 => 0xA088EE95
      case  8 => 0x79A8FC39 case  9 => 0xB502FCA7 case 10 => 0x3B8DFB44 case 11 => 0xF727FBDA
      case 12 => 0xFDE2F2C3 case 13 => 0x3148F25D case 14 => 0xBFC7F5BE case _  => 0x736DF520)
    case 11 => (match j
      case  0 => 0xD6F6D6A7 case  1 => 0x1A5CD639 case  2 => 0x94D3D1DA case  3 => 0x5879D144
      case  4 => 0x52BCD85D case  5 => 0x9E16D8C3 case  6 => 0x1099DF20 case  7 => 0xDC33DFBE
      case  8 => 0x0513CD12 case  9 => 0xC9B9CD8C case 10 => 0x4736CA6F case 11 => 0x8B9CCAF1
      case 12 => 0x8159C3E8 case 13 => 0x4DF3C376 case 14 => 0xC37CC495 case _  => 0x0FD6C40B)
    case 12 => (match j
      case  0 => 0x7AA64737 case  1 => 0xB60C47A9 case  2 => 0x3883404A case  3 => 0xF42940D4
      case  4 => 0xFEEC49CD case  5 => 0x32464953 case  6 => 0xBCC94EB0 case  7 => 0x70634E2E
      case  8 => 0xA9435C82 case  9 => 0x65E95C1C case 10 => 0xEB665BFF case 11 => 0x27CC5B61
      case 12 => 0x2D095278 case 13 => 0xE1A352E6 case 14 => 0x6F2C5505 case _  => 0xA386559B)
    case 13 => (match j
      case  0 => 0x061D761C case  1 => 0xCAB77682 case  2 => 0x44387161 case  3 => 0x889271FF
      case  4 => 0x825778E6 case  5 => 0x4EFD7878 case  6 => 0xC0727F9B case  7 => 0x0CD87F05
      case  8 => 0xD5F86DA9 case  9 => 0x19526D37 case 10 => 0x97DD6AD4 case 11 => 0x5B776A4A
      case 12 => 0x51B26353 case 13 => 0x9D1863CD case 14 => 0x1397642E case _  => 0xDF3D64B0)
    case 14 => (match j
      case  0 => 0x83D02561 case  1 => 0x4F7A25FF case  2 => 0xC1F5221C case  3 => 0x0D5F2282
      case  4 => 0x079A2B9B case  5 => 0xCB302B05 case  6 => 0x45BF2CE6 case  7 => 0x89152C78
      case  8 => 0x50353ED4 case  9 => 0x9C9F3E4A case 10 => 0x121039A9 case 11 => 0xDEBA3937
      case 12 => 0xD47F302E case 13 => 0x18D530B0 case 14 => 0x965A3753 case _  => 0x5AF037CD)
    case _  => (match j
      case  0 => 0xFF6B144A case  1 => 0x33C114D4 case  2 => 0xBD4E1337 case  3 => 0x71E413A9
      case  4 => 0x7B211AB0 case  5 => 0xB78B1A2E case  6 => 0x39041DCD case  7 => 0xF5AE1D53
      case  8 => 0x2C8E0FFF case  9 => 0xE0240F61 case 10 => 0x6EAB0882 case 11 => 0xA201081C
      case 12 => 0xA8C40105 case 13 => 0x646E019B case 14 => 0xEAE10678 case _  => 0x264B06E6)
  }

  function Xor(x: bv32, y: bv32): bv32 {
    x ^ y
  }

  /** One bit of reflected division by the polynomial of the MS-PST CRC. */
  function Shift(x: bv32): bv32 {
    if x & 1 == 1 then (x >> 1) ^ 0xEDB88320 else x >> 1
  }

  /** Eight bits of division: what one zero byte does to the running CRC. */
  function Shift8(x: bv32): bv32 {
    Shift(Shift(Shift(Shift(Shift(Shift(Shift(Shift(x))))))))
  }

  lemma OddSum(x: bv32, y: bv32)
    requires x & 1 != y & 1
    ensures (x ^ y) & 1 == 1
  {}

  lemma EvenSum(x: bv32, y: bv32)
    requires x & 1 == y & 1
    ensures (x ^ y) & 1 == 0
  {}

  lemma ShiftedSums(x: bv32, y: bv32)
    ensures (x ^ y) >> 1 == (x >> 1) ^ (y >> 1)
    ensures (x ^ y) >> 1 == ((x >> 1) ^ 0xEDB88320) ^ ((y >> 1) ^ 0xEDB88320)
  {}

  lemma ShiftedOddEven(x: bv32, y: bv32)
    ensures ((x ^ y) >> 1) ^ 0xEDB88320 == ((x >> 1) ^ 0xEDB88320) ^ (y >> 1)
  {}

  lemma ShiftOddOdd(x: bv32, y: bv32, z: bv32)
    requires z == x ^ y && x & 1 == 1 && y & 1 == 1
    ensures Shift(z) == Shift(x) ^ Shift(y)
  {
    EvenSum(x, y);
    ShiftedSums(x, y);
  }

  lemma ShiftOddEven(x: bv32, y: bv32, z: bv32)
    requires z == x ^ y && x & 1 == 1 && y & 1 == 0
    ensures Shift(z) == Shift(x) ^ Shift(y)
  {
    OddSum(x, y);
    ShiftedOddEven(x, y);
  }

  lemma ShiftEvenEven(x: bv32, y: bv32, z: bv32)
    requires z == x ^ y && x & 1 == 0 && y & 1 == 0
    ensures Shift(z) == Shift(x) ^ Shift(y)
  {
    EvenSum(x, y);
    ShiftedSums(x, y);
  }

  lemma Commutes(x: bv32, y: bv32)
    ensures x ^ y == y ^ x
  {}

  lemma Parity(x: bv32)
    ensures x & 1 == 0 || x & 1 == 1
  {}

  lemma ShiftLinear(x: bv32, y: bv32)
    ensures Shift(x ^ y) == Shift(x) ^ Shift(y)
  {
    Parity(x);
    Parity(y);
    if x & 1 == 1 {
      if y & 1 == 1 { ShiftOddOdd(x, y, x ^ y); } else { ShiftOddEven(x, y, x ^ y); }
    } else {
      if y & 1 == 1 {
        Commutes(x, y);
        Commutes(Shift(x), Shift(y));
        ShiftOddEven(y, x, y ^ x);
      } else {
        ShiftEvenEven(x, y, x ^ y);
      }
    }
  }

  lemma Shift8Linear()
    ensures Linear(Shift8, Xor)
  {
    assert Linear(Shift, Xor) by {
      forall x, y ensures Shift(Xor(x, y)) == Xor(Shift(x), Shift(y)) {
        ShiftLinear(x, y);
      }
    }
    forall x, y ensures Shift8(Xor(x, y)) == Xor(Shift8(x), Shift8(y)) {
      EightfoldLinear(Shift, Xor, x, y);
    }
  }

  /** The word a when the mask bit of b is set, and zero otherwise. */
  function Choose(b: bv8, mask: bv8, a: bv32): bv32 {
    if b & mask != 0 then a else 0
  }

  /** The XOR of the words chosen by the set bits of b. */
  function Combine(b: bv8,
      a0: bv32, a1: bv32, a2: bv32, a3: bv32, a4: bv32, a5: bv32, a6: bv32, a7: bv32): bv32
  {
    Xor(Xor(Xor(Xor(Xor(Xor(Xor(
      Choose(b, 1, a0), Choose(b, 2, a1)), Choose(b, 4, a2)), Choose(b, 8, a3)
      ), Choose(b, 16, a4)), Choose(b, 32, a5)), Choose(b, 64, a6)), Choose(b, 128, a7))
  }

  lemma ChooseLinear(f: bv32 -> bv32, b: bv8, mask: bv8, a: bv32)
    requires f(0) == 0
    ensures f(Choose(b, mask, a)) == Choose(b, mask, f(a))
  {}

  lemma LinearCombine(f: bv32 -> bv32, b: bv8,
      a0: bv32, a1: bv32, a2: bv32, a3: bv32, a4: bv32, a5: bv32, a6: bv32, a7: bv32)
    requires Linear(f, Xor) && f(0) == 0
    ensures f(Combine(b, a0, a1, a2, a3, a4, a5, a6, a7))
         == Combine(b, f(a0), f(a1), f(a2), f(a3), f(a4), f(a5), f(a6), f(a7))
  {
    EightTerms(f, Xor, Choose(b, 1, a0), Choose(b, 2, a1), Choose(b, 4, a2), Choose(b, 8, a3), Choose(b, 16, a4), Choose(b, 32, a5), Choose(b, 64, a6), Choose(b, 128, a7));
    ChooseLinear(f, b, 1, a0);
    ChooseLinear(f, b, 2, a1);
    ChooseLinear(f, b, 4, a2);
    ChooseLinear(f, b, 8, a3);
    ChooseLinear(f, b, 16, a4);
    ChooseLinear(f, b, 32, a5);
    ChooseLinear(f, b, 64, a6);
    ChooseLinear(f, b, 128, a7);
  }

  lemma CombineBits(b: bv8)
    ensures Combine(b, 1, 2, 4, 8, 16, 32, 64, 128) == b as bv32
  {}

  predicate Offset32IsLinear(b: bv8) {
    Offset32(b) == Combine(b,
      0x77073096, 0xEE0E612C, 0x076DC419, 0x0EDB8832, 0x1DB71064, 0x3B6E20C8, 0x76DC4190, 0xEDB88320)
  }

  lemma Offset32Rows0(b: bv8)
    requires b >> 6 == 0
    ensures Offset32IsLinear(b)
  {
    match b >> 4 case 0 => case 1 => case 2 => case _ =>
  }

  lemma Offset32Rows1(b: bv8)
    requires b >> 6 == 1
    ensures Offset32IsLinear(b)
  {
    match b >> 4 case 4 => case 5 => case 6 => case _ =>
  }

  lemma Offset32Rows2(b: bv8)
    requires b >> 6 == 2
    ensures Offset32IsLinear(b)
  {
    match b >> 4 case 8 => case 9 => case 10 => case _ =>
  }

  lemma Offset32Rows3(b: bv8)
    requires b >> 6 == 3
    ensures Offset32IsLinear(b)
  {
    match b >> 4 case 12 => case 13 => case 14 => case _ =>
  }

  lemma Offset32Linear(b: bv8)
    ensures Offset32(b) == Combine(b,
      0x77073096, 0xEE0E612C, 0x076DC419, 0x0EDB8832, 0x1DB71064, 0x3B6E20C8, 0x76DC4190, 0xEDB88320)
  {
    match b >> 6
    case 0 => Offset32Rows0(b);
    case 1 => Offset32Rows1(b);
    case 2 => Offset32Rows2(b);
    case _ => Offset32Rows3(b);
  }

  predicate Offset40IsLinear(b: bv8) {
    Offset40(b) == Combine(b,
      0x191B3141, 0x32366282, 0x646CC504, 0xC8D98A08, 0x4AC21251, 0x958424A2, 0xF0794F05, 0x3B83984B)
  }

  lemma Offset40Rows0(b: bv8)
    requires b >> 6 == 0
    ensures Offset40IsLinear(b)
  {
    match b >> 4 case 0 => case 1 => case 2 => case _ =>
  }

  lemma Offset40Rows1(b: bv8)
    requires b >> 6 == 1
    ensures Offset40IsLinear(b)
  {
    match b >> 4 case 4 => case 5 => case 6 => case _ =>
  }

  lemma Offset40Rows2(b: bv8)
    requires b >> 6 == 2
    ensures Offset40IsLinear(b)
  {
    match b >> 4 case 8 => case 9 => case 10 => case _ =>
  }

  lemma Offset40Rows3(b: bv8)
    requires b >> 6 == 3
    ensures Offset40IsLinear(b)
  {
    match b >> 4 case 12 => case 13 => case 14 => case _ =>
  }

  lemma Offset40Linear(b: bv8)
    ensures Offset40(b) == Combine(b,
      0x191B3141, 0x32366282, 0x646CC504, 0xC8D98A08, 0x4AC21251, 0x958424A2, 0xF0794F05, 0x3B83984B)
  {
    match b >> 6
    case 0 => Offset40Rows0(b);
    case 1 => Offset40Rows1(b);
    case 2 => Offset40Rows2(b);
    case _ => Offset40Rows3(b);
  }

  predicate Offset48IsLinear(b: bv8) {
    Offset48(b) == Combine(b,
      0x01C26A37, 0x0384D46E, 0x0709A8DC, 0x0E1351B8, 0x1C26A370, 0x384D46E0, 0x709A8DC0, 0xE1351B80)
  }

  lemma Offset48Rows0(b: bv8)
    requires b >> 6 == 0
    ensures Offset48IsLinear(b)
  {
    match b >> 4 case 0 => case 1 => case 2 => case _ =>
  }

  lemma Offset48Rows1(b: bv8)
    requires b >> 6 == 1
    ensures Offset48IsLinear(b)
  {
    match b >> 4 case 4 => case 5 => case 6 => case _ =>
  }

  lemma Offset48Rows2(b: bv8)
    requires b >> 6 == 2
    ensures Offset48IsLinear(b)
  {
    match b >> 4 case 8 => case 9 => case 10 => case _ =>
  }

  lemma Offset48Rows3(b: bv8)
    requires b >> 6 == 3
    ensures Offset48IsLinear(b)
  {
    match b >> 4 case 12 => case 13 => case 14 => case _ =>
  }

  lemma Offset48Linear(b: bv8)
    ensures Offset48(b) == Combine(b,
      0x01C26A37, 0x0384D46E, 0x0709A8DC, 0x0E1351B8, 0x1C26A370, 0x384D46E0, 0x709A8DC0, 0xE1351B80)
  {
    match b >> 6
    case 0 => Offset48Rows0(b);
    case 1 => Offset48Rows1(b);
    case 2 => Offset48Rows2(b);
    case _ => Offset48Rows3(b);
  }

  predicate Offset56IsLinear(b: bv8) {
    Offset56(b) == Combine(b,
      0xB8BC6765, 0xAA09C88B, 0x8F629757, 0xC5B428EF, 0x5019579F, 0xA032AF3E, 0x9B14583D, 0xED59B63B)
  }

  lemma Offset56Rows0(b: bv8)
    requires b >> 6 == 0
    ensures Offset56IsLinear(b)
  {
    match b >> 4 case 0 => case 1 => case 2 => case _ =>
  }

  lemma Offset56Rows1(b: bv8)
    requires b >> 6 == 1
    ensures Offset56IsLinear(b)
  {
    match b >> 4 case 4 => case 5 => case 6 => case _ =>
  }

  lemma Offset56Rows2(b: bv8)
    requires b >> 6 == 2
    ensures Offset56IsLinear(b)
  {
    match b >> 4 case 8 => case 9 => case 10 => case _ =>
  }

  lemma Offset56Rows3(b: bv8)
    requires b >> 6 == 3
    ensures Offset56IsLinear(b)
  {
    match b >> 4 case 12 => case 13 => case 14 => case _ =>
  }

  lemma Offset56Linear(b: bv8)
    ensures Offset56(b) == Combine(b,
      0xB8BC6765, 0xAA09C88B, 0x8F629757, 0xC5B428EF, 0x5019579F, 0xA032AF3E, 0x9B14583D, 0xED59B63B)
  {
    match b >> 6
    case 0 => Offset56Rows0(b);
    case 1 => Offset56Rows1(b);
    case 2 => Offset56Rows2(b);
    case _ => Offset56Rows3(b);
  }

  predicate Offset64IsLinear(b: bv8) {
    Offset64(b) == Combine(b,
      0x3D6029B0, 0x7AC05360, 0xF580A6C0, 0x30704BC1, 0x60E09782, 0xC1C12F04, 0x58F35849, 0xB1E6B092)
  }

  lemma Offset64Rows0(b: bv8)
    requires b >> 6 == 0
    ensures Offset64IsLinear(b)
  {
    match b >> 4 case 0 => case 1 => case 2 => case _ =>
  }

  lemma Offset64Rows1(b: bv8)
    requires b >> 6 == 1
    ensures Offset64IsLinear(b)
  {
    match b >> 4 case 4 => case 5 => case 6 => case _ =>
  }

  lemma Offset64Rows2(b: bv8)
    requires b >> 6 == 2
    ensures Offset64IsLinear(b)
  {
    match b >> 4 case 8 => case 9 => case 10 => case _ =>
  }

  lemma Offset64Rows3(b: bv8)
    requires b >> 6 == 3
    ensures Offset64IsLinear(b)
  {
    match b >> 4 case 12 => case 13 => case 14 => case _ =>
  }

  lemma Offset64Linear(b: bv8)
    ensures Offset64(b) == Combine(b,
      0x3D6029B0, 0x7AC05360, 0xF580A6C0, 0x30704BC1, 0x60E09782, 0xC1C12F04, 0x58F35849, 0xB1E6B092)
  {
    match b >> 6
    case 0 => Offset64Rows0(b);
    case 1 => Offset64Rows1(b);
    case 2 => Offset64Rows2(b);
    case _ => Offset64Rows3(b);
  }

  predicate Offset72IsLinear(b: bv8) {
    Offset72(b) == Combine(b,
      0xCB5CD3A5, 0x4DC8A10B, 0x9B914216, 0xEC53826D, 0x03D6029B, 0x07AC0536, 0x0F580A6C, 0x1EB014D8)
  }

  lemma Offset72Rows0(b: bv8)
    requires b >> 6 == 0
    ensures Offset72IsLinear(b)
  {
    match b >> 4 case 0 => case 1 => case 2 => case _ =>
  }

  lemma Offset72Rows1(b: bv8)
    requires b >> 6 == 1
    ensures Offset72IsLinear(b)
  {
    match b >> 4 case 4 => case 5 => case 6 => case _ =>
  }

  lemma Offset72Rows2(b: bv8)
    requires b >> 6 == 2
    ensures Offset72IsLinear(b)
  {
    match b >> 4 case 8 => case 9 => case 10 => case _ =>
  }

  lemma Offset72Rows3(b: bv8)
    requires b >> 6 == 3
    ensures Offset72IsLinear(b)
  {
    match b >> 4 case 12 => case 13 => case 14 => case _ =>
  }

  lemma Offset72Linear(b: bv8)
    ensures Offset72(b) == Combine(b,
      0xCB5CD3A5, 0x4DC8A10B, 0x9B914216, 0xEC53826D, 0x03D6029B, 0x07AC0536, 0x0F580A6C, 0x1EB014D8)
  {
    match b >> 6
    case 0 => Offset72Rows0(b);
    case 1 => Offset72Rows1(b);
    case 2 => Offset72Rows2(b);
    case _ => Offset72Rows3(b);
  }

  predicate Offset80IsLinear(b: bv8) {
    Offset80(b) == Combine(b,
      0xA6770BB4, 0x979F1129, 0xF44F2413, 0x33EF4E67, 0x67DE9CCE, 0xCFBD399C, 0x440B7579, 0x8816EAF2)
  }

  lemma Offset80Rows0(b: bv8)
    requires b >> 6 == 0
    ensures Offset80IsLinear(b)
  {
    match b >> 4 case 0 => case 1 => case 2 => case _ =>
  }

  lemma Offset80Rows1(b: bv8)
    requires b >> 6 == 1
    ensures Offset80IsLinear(b)
  {
    match b >> 4 case 4 => case 5 => case 6 => case _ =>
  }

  lemma Offset80Rows2(b: bv8)
    requires b >> 6 == 2
    ensures Offset80IsLinear(b)
  {
    match b >> 4 case 8 => case 9 => case 10 => case _ =>
  }

  lemma Offset80Rows3(b: bv8)
    requires b >> 6 == 3
    ensures Offset80IsLinear(b)
  {
    match b >> 4 case 12 => case 13 => case 14 => case _ =>
  }

  lemma Offset80Linear(b: bv8)
    ensures Offset80(b) == Combine(b,
      0xA6770BB4, 0x979F1129, 0xF44F2413, 0x33EF4E67, 0x67DE9CCE, 0xCFBD399C, 0x440B7579, 0x8816EAF2)
  {
    match b >> 6
    case 0 => Offset80Rows0(b);
    case 1 => Offset80Rows1(b);
    case 2 => Offset80Rows2(b);
    case _ => Offset80Rows3(b);
  }

  predicate Offset88IsLinear(b: bv8) {
    Offset88(b) == Combine(b,
      0xCCAA009E, 0x4225077D, 0x844A0EFA, 0xD3E51BB5, 0x7CBB312B, 0xF9766256, 0x299DC2ED, 0x533B85DA)
  }

  lemma Offset88Rows0(b: bv8)
    requires b >> 6 == 0
    ensures Offset88IsLinear(b)
  {
    match b >> 4 case 0 => case 1 => case 2 => case _ =>
  }

  lemma Offset88Rows1(b: bv8)
    requires b >> 6 == 1
    ensures Offset88IsLinear(b)
  {
    match b >> 4 case 4 => case 5 => case 6 => case _ =>
  }

  lemma Offset88Rows2(b: bv8)
    requires b >> 6 == 2
    ensures Offset88IsLinear(b)
  {
    match b >> 4 case 8 => case 9 => case 10 => case _ =>
  }

  lemma Offset88Rows3(b: bv8)
    requires b >> 6 == 3
    ensures Offset88IsLinear(b)
  {
    match b >> 4 case 12 => case 13 => case 14 => case _ =>
  }

  lemma Offset88Linear(b: bv8)
    ensures Offset88(b) == Combine(b,
      0xCCAA009E, 0x4225077D, 0x844A0EFA, 0xD3E51BB5, 0x7CBB312B, 0xF9766256, 0x299DC2ED, 0x533B85DA)
  {
    match b >> 6
    case 0 => Offset88Rows0(b);
    case 1 => Offset88Rows1(b);
    case 2 => Offset88Rows2(b);
    case _ => Offset88Rows3(b);
  }

  lemma Offset32Basis()
    ensures Shift8(1) == 0x77073096
    ensures Shift8(2) == 0xEE0E612C
    ensures Shift8(4) == 0x076DC419
    ensures Shift8(8) == 0x0EDB8832
    ensures Shift8(16) == 0x1DB71064
    ensures Shift8(32) == 0x3B6E20C8
    ensures Shift8(64) == 0x76DC4190
    ensures Shift8(128) == 0xEDB88320
  {}

  lemma Offset32Shifts(b: bv8)
    ensures Offset32(b) == Shift8(b as bv32)
  {
    CombineBits(b);
    Offset32Linear(b);
    Offset32Basis();
    Shift8Linear();
    LinearCombine(Shift8, b, 1, 2, 4, 8, 16, 32, 64, 128);
  }

  lemma Offset40Basis()
    ensures Shift8(0x77073096) == 0x191B3141
    ensures Shift8(0xEE0E612C) == 0x32366282
    ensures Shift8(0x076DC419) == 0x646CC504
    ensures Shift8(0x0EDB8832) == 0xC8D98A08
    ensures Shift8(0x1DB71064) == 0x4AC21251
    ensures Shift8(0x3B6E20C8) == 0x958424A2
    ensures Shift8(0x76DC4190) == 0xF0794F05
    ensures Shift8(0xEDB88320) == 0x3B83984B
  {}

  lemma Offset40Shifts(b: bv8)
    ensures Offset40(b) == Shift8(Offset32(b))
  {
    Offset32Linear(b);
    Offset40Linear(b);
    Offset40Basis();
    Shift8Linear();
    LinearCombine(Shift8, b, 0x77073096, 0xEE0E612C, 0x076DC419, 0x0EDB8832, 0x1DB71064, 0x3B6E20C8, 0x76DC4190, 0xEDB88320);
  }

  lemma Offset48Basis()
    ensures Shift8(0x191B3141) == 0x01C26A37
    ensures Shift8(0x32366282) == 0x0384D46E
    ensures Shift8(0x646CC504) == 0x0709A8DC
    ensures Shift8(0xC8D98A08) == 0x0E1351B8
    ensures Shift8(0x4AC21251) == 0x1C26A370
    ensures Shift8(0x958424A2) == 0x384D46E0
    ensures Shift8(0xF0794F05) == 0x709A8DC0
    ensures Shift8(0x3B83984B) == 0xE1351B80
  {}

  lemma Offset48Shifts(b: bv8)
    ensures Offset48(b) == Shift8(Offset40(b))
  {
    Offset40Linear(b);
    Offset48Linear(b);
    Offset48Basis();
    Shift8Linear();
    LinearCombine(Shift8, b, 0x191B3141, 0x32366282, 0x646CC504, 0xC8D98A08, 0x4AC21251, 0x958424A2, 0xF0794F05, 0x3B83984B);
  }

  lemma Offset56Basis()
    ensures Shift8(0x01C26A37) == 0xB8BC6765
    ensures Shift8(0x0384D46E) == 0xAA09C88B
    ensures Shift8(0x0709A8DC) == 0x8F629757
    ensures Shift8(0x0E1351B8) == 0xC5B428EF
    ensures Shift8(0x1C26A370) == 0x5019579F
    ensures Shift8(0x384D46E0) == 0xA032AF3E
    ensures Shift8(0x709A8DC0) == 0x9B14583D
    ensures Shift8(0xE1351B80) == 0xED59B63B
  {}

  lemma Offset56Shifts(b: bv8)
    ensures Offset56(b) == Shift8(Offset48(b))
  {
    Offset48Linear(b);
    Offset56Linear(b);
    Offset56Basis();
    Shift8Linear();
    LinearCombine(Shift8, b, 0x01C26A37, 0x0384D46E, 0x0709A8DC, 0x0E1351B8, 0x1C26A370, 0x384D46E0, 0x709A8DC0, 0xE1351B80);
  }

  lemma Offset64Basis()
    ensures Shift8(0xB8BC6765) == 0x3D6029B0
    ensures Shift8(0xAA09C88B) == 0x7AC05360
    ensures Shift8(0x8F629757) == 0xF580A6C0
    ensures Shift8(0xC5B428EF) == 0x30704BC1
    ensures Shift8(0x5019579F) == 0x60E09782
    ensures Shift8(0xA032AF3E) == 0xC1C12F04
    ensures Shift8(0x9B14583D) == 0x58F35849
    ensures Shift8(0xED59B63B) == 0xB1E6B092
  {}

  lemma Offset64Shifts(b: bv8)
    ensures Offset64(b) == Shift8(Offset56(b))
  {
    Offset56Linear(b);
    Offset64Linear(b);
    Offset64Basis();
    Shift8Linear();
    LinearCombine(Shift8, b, 0xB8BC6765, 0xAA09C88B, 0x8F629757, 0xC5B428EF, 0x5019579F, 0xA032AF3E, 0x9B14583D, 0xED59B63B);
  }

  lemma Offset72Basis()
    ensures Shift8(0x3D6029B0) == 0xCB5CD3A5
    ensures Shift8(0x7AC05360) == 0x4DC8A10B
    ensures Shift8(0xF580A6C0) == 0x9B914216
    ensures Shift8(0x30704BC1) == 0xEC53826D
    ensures Shift8(0x60E09782) == 0x03D6029B
    ensures Shift8(0xC1C12F04) == 0x07AC0536
    ensures Shift8(0x58F35849) == 0x0F580A6C
    ensures Shift8(0xB1E6B092) == 0x1EB014D8
  {}

  lemma Offset72Shifts(b: bv8)
    ensures Offset72(b) == Shift8(Offset64(b))
  {
    Offset64Linear(b);
    Offset72Linear(b);
    Offset72Basis();
    Shift8Linear();
    LinearCombine(Shift8, b, 0x3D6029B0, 0x7AC05360, 0xF580A6C0, 0x30704BC1, 0x60E09782, 0xC1C12F04, 0x58F35849, 0xB1E6B092);
  }

  lemma Offset80Basis()
    ensures Shift8(0xCB5CD3A5) == 0xA6770BB4
    ensures Shift8(0x4DC8A10B) == 0x979F1129
    ensures Shift8(0x9B914216) == 0xF44F2413
    ensures Shift8(0xEC53826D) == 0x33EF4E67
    ensures Shift8(0x03D6029B) == 0x67DE9CCE
    ensures Shift8(0x07AC0536) == 0xCFBD399C
    ensures Shift8(0x0F580A6C) == 0x440B7579
    ensures Shift8(0x1EB014D8) == 0x8816EAF2
  {}

  lemma Offset80Shifts(b: bv8)
    ensures Offset80(b) == Shift8(Offset72(b))
  {
    Offset72Linear(b);
    Offset80Linear(b);
    Offset80Basis();
    Shift8Linear();
    LinearCombine(Shift8, b, 0xCB5CD3A5, 0x4DC8A10B, 0x9B914216, 0xEC53826D, 0x03D6029B, 0x07AC0536, 0x0F580A6C, 0x1EB014D8);
  }

  lemma Offset88Basis()
    ensures Shift8(0xA6770BB4) == 0xCCAA009E
    ensures Shift8(0x979F1129) == 0x4225077D
    ensures Shift8(0xF44F2413) == 0x844A0EFA
    ensures Shift8(0x33EF4E67) == 0xD3E51BB5
    ensures Shift8(0x67DE9CCE) == 0x7CBB312B
    ensures Shift8(0xCFBD399C) == 0xF9766256
    ensures Shift8(0x440B7579) == 0x299DC2ED
    ensures Shift8(0x8816EAF2) == 0x533B85DA
  {}

  lemma Offset88Shifts(b: bv8)
    ensures Offset88(b) == Shift8(Offset80(b))
  {
    Offset80Linear(b);
    Offset88Linear(b);
    Offset88Basis();
    Shift8Linear();
    LinearCombine(Shift8, b, 0xA6770BB4, 0x979F1129, 0xF44F2413, 0x33EF4E67, 0x67DE9CCE, 0xCFBD399C, 0x440B7579, 0x8816EAF2);
  }

}
