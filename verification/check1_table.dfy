/*
  The test table of Base32Check1 with the default instance: for each payload
  the check character, acceptance of the payload followed by it, and
  rejection of the payload itself when its check character is not 'A'. A
  payload is evaluated in blocks of up to two symbols: block `BlockNs`
  records the symbols `s` at positions `N + 1` onwards, and `FamilySumK`
  gives the weighted sum of the first `K` symbols of a payload, one block
  after the sum of the previous even length.
*/
module Check1Table {
  import opened Wrappers
  import opened GfMatrix
  import opened Rfc4648
  import opened Check1
  import opened Check1Vectors

  lemma Block023()
    ensures Recorded(0, 0, "23", 2, 25)
  {
    assert RunFrom(0, 0, "23", 0, Step('2', 26, 21, Step('3', 27, 25, Done)));
    assert Final(0, Step('2', 26, 21, Step('3', 27, 25, Done))) == 25;
  }

  lemma Block0A()
    ensures Recorded(0, 0, "A", 1, 0)
  {
    assert RunFrom(0, 0, "A", 0, Step('A', 0, 0, Done));
    assert Final(0, Step('A', 0, 0, Done)) == 0;
  }

  lemma Block0AB()
    ensures Recorded(0, 0, "AB", 2, 6)
  {
    assert RunFrom(0, 0, "AB", 0, Step('A', 0, 0, Step('B', 1, 6, Done)));
    assert Final(0, Step('A', 0, 0, Step('B', 1, 6, Done))) == 6;
  }

  lemma Block0CA()
    ensures Recorded(0, 0, "CA", 2, 5)
  {
    assert RunFrom(0, 0, "CA", 0, Step('C', 2, 5, Step('A', 0, 5, Done)));
    assert Final(0, Step('C', 2, 5, Step('A', 0, 5, Done))) == 5;
  }

  lemma Block0CO()
    ensures Recorded(0, 0, "CO", 2, 29)
  {
    assert RunFrom(0, 0, "CO", 0, Step('C', 2, 5, Step('O', 14, 29, Done)));
    assert Final(0, Step('C', 2, 5, Step('O', 14, 29, Done))) == 29;
  }

  lemma Block0DE()
    ensures Recorded(0, 0, "DE", 2, 23)
  {
    assert RunFrom(0, 0, "DE", 0, Step('D', 3, 6, Step('E', 4, 23, Done)));
    assert Final(0, Step('D', 3, 6, Step('E', 4, 23, Done))) == 23;
  }

  lemma Block245()
    ensures Recorded(25, 2, "45", 2, 1)
  {
    assert RunFrom(25, 2, "45", 0, Step('4', 28, 24, Step('5', 29, 1, Done)));
    assert Final(25, Step('4', 28, 24, Step('5', 29, 1, Done))) == 1;
  }

  lemma Block2AD()
    ensures Recorded(23, 2, "AD", 2, 2)
  {
    assert RunFrom(23, 2, "AD", 0, Step('A', 0, 23, Step('D', 3, 2, Done)));
    assert Final(23, Step('A', 0, 23, Step('D', 3, 2, Done))) == 2;
  }

  lemma Block2C()
    ensures Recorded(6, 2, "C", 1, 17)
  {
    assert RunFrom(6, 2, "C", 0, Step('C', 2, 17, Done));
    assert Final(6, Step('C', 2, 17, Done)) == 17;
  }

  lemma Block2CD()
    ensures Recorded(6, 2, "CD", 2, 4)
  {
    assert RunFrom(6, 2, "CD", 0, Step('C', 2, 17, Step('D', 3, 4, Done)));
    assert Final(6, Step('C', 2, 17, Step('D', 3, 4, Done))) == 4;
  }

  lemma Block2FE()
    ensures Recorded(5, 2, "FE", 2, 15)
  {
    assert RunFrom(5, 2, "FE", 0, Step('F', 5, 10, Step('E', 4, 15, Done)));
    assert Final(5, Step('F', 5, 10, Step('E', 4, 15, Done))) == 15;
  }

  lemma Block2NS()
    ensures Recorded(29, 2, "NS", 2, 21)
  {
    assert RunFrom(29, 2, "NS", 0, Step('N', 13, 23, Step('S', 18, 21, Done)));
    assert Final(29, Step('N', 13, 23, Step('S', 18, 21, Done))) == 21;
  }

  lemma Block467()
    ensures Recorded(1, 4, "67", 2, 1)
  {
    assert RunFrom(1, 4, "67", 0, Step('6', 30, 24, Step('7', 31, 1, Done)));
    assert Final(1, Step('6', 30, 24, Step('7', 31, 1, Done))) == 1;
  }

  lemma Block4BA()
    ensures Recorded(15, 4, "BA", 2, 26)
  {
    assert RunFrom(15, 4, "BA", 0, Step('B', 1, 26, Step('A', 0, 26, Done)));
    assert Final(15, Step('B', 1, 26, Step('A', 0, 26, Done))) == 26;
  }

  lemma Block4BE()
    ensures Recorded(2, 4, "BE", 2, 0)
  {
    assert RunFrom(2, 4, "BE", 0, Step('B', 1, 23, Step('E', 4, 0, Done)));
    assert Final(2, Step('B', 1, 23, Step('E', 4, 0, Done))) == 0;
  }

  lemma Block4DE()
    ensures Recorded(15, 4, "DE", 2, 18)
  {
    assert RunFrom(15, 4, "DE", 0, Step('D', 3, 5, Step('E', 4, 18, Done)));
    assert Final(15, Step('D', 3, 5, Step('E', 4, 18, Done))) == 18;
  }

  lemma Block4E()
    ensures Recorded(4, 4, "E", 1, 15)
  {
    assert RunFrom(4, 4, "E", 0, Step('E', 4, 15, Done));
    assert Final(4, Step('E', 4, 15, Done)) == 15;
  }

  lemma Block4EC()
    ensures Recorded(21, 4, "EC", 2, 0)
  {
    assert RunFrom(21, 4, "EC", 0, Step('E', 4, 30, Step('C', 2, 0, Done)));
    assert Final(21, Step('E', 4, 30, Step('C', 2, 0, Done))) == 0;
  }

  lemma Block4EF()
    ensures Recorded(4, 4, "EF", 2, 18)
  {
    assert RunFrom(4, 4, "EF", 0, Step('E', 4, 15, Step('F', 5, 18, Done)));
    assert Final(4, Step('E', 4, 15, Step('F', 5, 18, Done))) == 18;
  }

  lemma Block6AD()
    ensures Recorded(18, 6, "AD", 2, 0)
  {
    assert RunFrom(18, 6, "AD", 0, Step('A', 0, 18, Step('D', 3, 0, Done)));
    assert Final(18, Step('A', 0, 18, Step('D', 3, 0, Done))) == 0;
  }

  lemma Block6BE()
    ensures Recorded(26, 6, "BE", 2, 17)
  {
    assert RunFrom(26, 6, "BE", 0, Step('B', 1, 14, Step('E', 4, 17, Done)));
    assert Final(26, Step('B', 1, 14, Step('E', 4, 17, Done))) == 17;
  }

  lemma Block6EF()
    ensures Recorded(0, 6, "EF", 2, 25)
  {
    assert RunFrom(0, 6, "EF", 0, Step('E', 4, 15, Step('F', 5, 25, Done)));
    assert Final(0, Step('E', 4, 15, Step('F', 5, 25, Done))) == 25;
  }

  lemma Block6G()
    ensures Recorded(18, 6, "G", 1, 0)
  {
    assert RunFrom(18, 6, "G", 0, Step('G', 6, 0, Done));
    assert Final(18, Step('G', 6, 0, Done)) == 0;
  }

  lemma Block6GH()
    ensures Recorded(18, 6, "GH", 2, 13)
  {
    assert RunFrom(18, 6, "GH", 0, Step('G', 6, 0, Step('H', 7, 13, Done)));
    assert Final(18, Step('G', 6, 0, Step('H', 7, 13, Done))) == 13;
  }

  lemma Block6RA()
    ensures Recorded(0, 6, "RA", 2, 30)
  {
    assert RunFrom(0, 6, "RA", 0, Step('R', 17, 30, Step('A', 0, 30, Done)));
    assert Final(0, Step('R', 17, 30, Step('A', 0, 30, Done))) == 30;
  }

  lemma Block8I()
    ensures Recorded(13, 8, "I", 1, 16)
  {
    assert RunFrom(13, 8, "I", 0, Step('I', 8, 16, Done));
    assert Final(13, Step('I', 8, 16, Done)) == 16;
  }

  lemma Block8IJ()
    ensures Recorded(13, 8, "IJ", 2, 15)
  {
    assert RunFrom(13, 8, "IJ", 0, Step('I', 8, 16, Step('J', 9, 15, Done)));
    assert Final(13, Step('I', 8, 16, Step('J', 9, 15, Done))) == 15;
  }

  lemma Block8TI()
    ensures Recorded(30, 8, "TI", 2, 8)
  {
    assert RunFrom(30, 8, "TI", 0, Step('T', 19, 19, Step('I', 8, 8, Done)));
    assert Final(30, Step('T', 19, 19, Step('I', 8, 8, Done))) == 8;
  }

  lemma Block10K()
    ensures Recorded(15, 10, "K", 1, 0)
  {
    assert RunFrom(15, 10, "K", 0, Step('K', 10, 0, Done));
    assert Final(15, Step('K', 10, 0, Done)) == 0;
  }

  lemma Block10KL()
    ensures Recorded(15, 10, "KL", 2, 14)
  {
    assert RunFrom(15, 10, "KL", 0, Step('K', 10, 0, Step('L', 11, 14, Done)));
    assert Final(15, Step('K', 10, 0, Step('L', 11, 14, Done))) == 14;
  }

  lemma Block10O()
    ensures Recorded(8, 10, "O", 1, 28)
  {
    assert RunFrom(8, 10, "O", 0, Step('O', 14, 28, Done));
    assert Final(8, Step('O', 14, 28, Done)) == 28;
  }

  lemma Block12M()
    ensures Recorded(14, 12, "M", 1, 27)
  {
    assert RunFrom(14, 12, "M", 0, Step('M', 12, 27, Done));
    assert Final(14, Step('M', 12, 27, Done)) == 27;
  }

  lemma Block12MN()
    ensures Recorded(14, 12, "MN", 2, 20)
  {
    assert RunFrom(14, 12, "MN", 0, Step('M', 12, 27, Step('N', 13, 20, Done)));
    assert Final(14, Step('M', 12, 27, Step('N', 13, 20, Done))) == 20;
  }

  lemma Block14O()
    ensures Recorded(20, 14, "O", 1, 28)
  {
    assert RunFrom(20, 14, "O", 0, Step('O', 14, 28, Done));
    assert Final(20, Step('O', 14, 28, Done)) == 28;
  }

  lemma Block14OP()
    ensures Recorded(20, 14, "OP", 2, 26)
  {
    assert RunFrom(20, 14, "OP", 0, Step('O', 14, 28, Step('P', 15, 26, Done)));
    assert Final(20, Step('O', 14, 28, Step('P', 15, 26, Done))) == 26;
  }

  lemma Block16Q()
    ensures Recorded(26, 16, "Q", 1, 13)
  {
    assert RunFrom(26, 16, "Q", 0, Step('Q', 16, 13, Done));
    assert Final(26, Step('Q', 16, 13, Done)) == 13;
  }

  lemma Block16QR()
    ensures Recorded(26, 16, "QR", 2, 29)
  {
    assert RunFrom(26, 16, "QR", 0, Step('Q', 16, 13, Step('R', 17, 29, Done)));
    assert Final(26, Step('Q', 16, 13, Step('R', 17, 29, Done))) == 29;
  }

  lemma Block18S()
    ensures Recorded(29, 18, "S", 1, 1)
  {
    assert RunFrom(29, 18, "S", 0, Step('S', 18, 1, Done));
    assert Final(29, Step('S', 18, 1, Done)) == 1;
  }

  lemma Block18ST()
    ensures Recorded(29, 18, "ST", 2, 4)
  {
    assert RunFrom(29, 18, "ST", 0, Step('S', 18, 1, Step('T', 19, 4, Done)));
    assert Final(29, Step('S', 18, 1, Step('T', 19, 4, Done))) == 4;
  }

  lemma Block20U()
    ensures Recorded(4, 20, "U", 1, 24)
  {
    assert RunFrom(4, 20, "U", 0, Step('U', 20, 24, Done));
    assert Final(4, Step('U', 20, 24, Done)) == 24;
  }

  lemma Block20UV()
    ensures Recorded(4, 20, "UV", 2, 22)
  {
    assert RunFrom(4, 20, "UV", 0, Step('U', 20, 24, Step('V', 21, 22, Done)));
    assert Final(4, Step('U', 20, 24, Step('V', 21, 22, Done))) == 22;
  }

  lemma Block22W()
    ensures Recorded(22, 22, "W", 1, 19)
  {
    assert RunFrom(22, 22, "W", 0, Step('W', 22, 19, Done));
    assert Final(22, Step('W', 22, 19, Done)) == 19;
  }

  lemma Block22WX()
    ensures Recorded(22, 22, "WX", 2, 1)
  {
    assert RunFrom(22, 22, "WX", 0, Step('W', 22, 19, Step('X', 23, 1, Done)));
    assert Final(22, Step('W', 22, 19, Step('X', 23, 1, Done))) == 1;
  }

  lemma Block24Y()
    ensures Recorded(1, 24, "Y", 1, 13)
  {
    assert RunFrom(1, 24, "Y", 0, Step('Y', 24, 13, Done));
    assert Final(1, Step('Y', 24, 13, Done)) == 13;
  }

  lemma Block24YZ()
    ensures Recorded(1, 24, "YZ", 2, 19)
  {
    assert RunFrom(1, 24, "YZ", 0, Step('Y', 24, 13, Step('Z', 25, 19, Done)));
    assert Final(1, Step('Y', 24, 13, Step('Z', 25, 19, Done))) == 19;
  }

  lemma Block262()
    ensures Recorded(19, 26, "2", 1, 18)
  {
    assert RunFrom(19, 26, "2", 0, Step('2', 26, 18, Done));
    assert Final(19, Step('2', 26, 18, Done)) == 18;
  }

  lemma Block2623()
    ensures Recorded(19, 26, "23", 2, 13)
  {
    assert RunFrom(19, 26, "23", 0, Step('2', 26, 18, Step('3', 27, 13, Done)));
    assert Final(19, Step('2', 26, 18, Step('3', 27, 13, Done))) == 13;
  }

  lemma Block284()
    ensures Recorded(13, 28, "4", 1, 10)
  {
    assert RunFrom(13, 28, "4", 0, Step('4', 28, 10, Done));
    assert Final(13, Step('4', 28, 10, Done)) == 10;
  }

  lemma Block2845()
    ensures Recorded(13, 28, "45", 2, 20)
  {
    assert RunFrom(13, 28, "45", 0, Step('4', 28, 10, Step('5', 29, 20, Done)));
    assert Final(13, Step('4', 28, 10, Step('5', 29, 20, Done))) == 20;
  }

  lemma Block306()
    ensures Recorded(20, 30, "6", 1, 10)
  {
    assert RunFrom(20, 30, "6", 0, Step('6', 30, 10, Done));
    assert Final(20, Step('6', 30, 10, Done)) == 10;
  }

  lemma Block3067()
    ensures Recorded(20, 30, "67", 2, 20)
  {
    assert RunFrom(20, 30, "67", 0, Step('6', 30, 10, Step('7', 31, 20, Done)));
    assert Final(20, Step('6', 30, 10, Step('7', 31, 20, Done))) == 20;
  }

  lemma Block32AB()
    ensures Recorded(20, 32, "AB", 2, 25)
  {
    assert RunFrom(20, 32, "AB", 0, Step('A', 0, 20, Step('B', 1, 25, Done)));
    assert Final(20, Step('A', 0, 20, Step('B', 1, 25, Done))) == 25;
  }

  lemma Block34CD()
    ensures Recorded(25, 34, "CD", 2, 28)
  {
    assert RunFrom(25, 34, "CD", 0, Step('C', 2, 22, Step('D', 3, 28, Done)));
    assert Final(25, Step('C', 2, 22, Step('D', 3, 28, Done))) == 28;
  }

  lemma Block36EF()
    ensures Recorded(28, 36, "EF", 2, 16)
  {
    assert RunFrom(28, 36, "EF", 0, Step('E', 4, 11, Step('F', 5, 16, Done)));
    assert Final(28, Step('E', 4, 11, Step('F', 5, 16, Done))) == 16;
  }

  lemma Block38GH()
    ensures Recorded(16, 38, "GH", 2, 14)
  {
    assert RunFrom(16, 38, "GH", 0, Step('G', 6, 20, Step('H', 7, 14, Done)));
    assert Final(16, Step('G', 6, 20, Step('H', 7, 14, Done))) == 14;
  }

  lemma Block40IJ()
    ensures Recorded(14, 40, "IJ", 2, 11)
  {
    assert RunFrom(14, 40, "IJ", 0, Step('I', 8, 21, Step('J', 9, 11, Done)));
    assert Final(14, Step('I', 8, 21, Step('J', 9, 11, Done))) == 11;
  }

  lemma Block42KL()
    ensures Recorded(11, 42, "KL", 2, 8)
  {
    assert RunFrom(11, 42, "KL", 0, Step('K', 10, 20, Step('L', 11, 8, Done)));
    assert Final(11, Step('K', 10, 20, Step('L', 11, 8, Done))) == 8;
  }

  lemma Block44MN()
    ensures Recorded(8, 44, "MN", 2, 29)
  {
    assert RunFrom(8, 44, "MN", 0, Step('M', 12, 2, Step('N', 13, 29, Done)));
    assert Final(8, Step('M', 12, 2, Step('N', 13, 29, Done))) == 29;
  }

  lemma Block46OP()
    ensures Recorded(29, 46, "OP", 2, 1)
  {
    assert RunFrom(29, 46, "OP", 0, Step('O', 14, 12, Step('P', 15, 1, Done)));
    assert Final(29, Step('O', 14, 12, Step('P', 15, 1, Done))) == 1;
  }

  lemma Block48QR()
    ensures Recorded(1, 48, "QR", 2, 15)
  {
    assert RunFrom(1, 48, "QR", 0, Step('Q', 16, 14, Step('R', 17, 15, Done)));
    assert Final(1, Step('Q', 16, 14, Step('R', 17, 15, Done))) == 15;
  }

  lemma Block50ST()
    ensures Recorded(15, 50, "ST", 2, 28)
  {
    assert RunFrom(15, 50, "ST", 0, Step('S', 18, 23, Step('T', 19, 28, Done)));
    assert Final(15, Step('S', 18, 23, Step('T', 19, 28, Done))) == 28;
  }

  lemma Block52UV()
    ensures Recorded(28, 52, "UV", 2, 24)
  {
    assert RunFrom(28, 52, "UV", 0, Step('U', 20, 4, Step('V', 21, 24, Done)));
    assert Final(28, Step('U', 20, 4, Step('V', 21, 24, Done))) == 24;
  }

  lemma Block54WX()
    ensures Recorded(24, 54, "WX", 2, 23)
  {
    assert RunFrom(24, 54, "WX", 0, Step('W', 22, 19, Step('X', 23, 23, Done)));
    assert Final(24, Step('W', 22, 19, Step('X', 23, 23, Done))) == 23;
  }

  lemma Block56YZ()
    ensures Recorded(23, 56, "YZ", 2, 19)
  {
    assert RunFrom(23, 56, "YZ", 0, Step('Y', 24, 14, Step('Z', 25, 19, Done)));
    assert Final(23, Step('Y', 24, 14, Step('Z', 25, 19, Done))) == 19;
  }

  lemma Block5823()
    ensures Recorded(19, 58, "23", 2, 14)
  {
    assert RunFrom(19, 58, "23", 0, Step('2', 26, 16, Step('3', 27, 14, Done)));
    assert Final(19, Step('2', 26, 16, Step('3', 27, 14, Done))) == 14;
  }

  lemma Block6045()
    ensures Recorded(14, 60, "45", 2, 29)
  {
    assert RunFrom(14, 60, "45", 0, Step('4', 28, 0, Step('5', 29, 29, Done)));
    assert Final(14, Step('4', 28, 0, Step('5', 29, 29, Done))) == 29;
  }

  lemma Block6267()
    ensures Recorded(29, 62, "67", 2, 29)
  {
    assert RunFrom(29, 62, "67", 0, Step('6', 30, 0, Step('7', 31, 29, Done)));
    assert Final(29, Step('6', 30, 0, Step('7', 31, 29, Done))) == 29;
  }

  lemma Block64AB()
    ensures Recorded(29, 64, "AB", 2, 7)
  {
    assert RunFrom(29, 64, "AB", 0, Step('A', 0, 29, Step('B', 1, 7, Done)));
    assert Final(29, Step('A', 0, 29, Step('B', 1, 7, Done))) == 7;
  }

  lemma Block66CD()
    ensures Recorded(7, 66, "CD", 2, 12)
  {
    assert RunFrom(7, 66, "CD", 0, Step('C', 2, 24, Step('D', 3, 12, Done)));
    assert Final(7, Step('C', 2, 24, Step('D', 3, 12, Done))) == 12;
  }

  lemma Block68EF()
    ensures Recorded(12, 68, "EF", 2, 21)
  {
    assert RunFrom(12, 68, "EF", 0, Step('E', 4, 3, Step('F', 5, 21, Done)));
    assert Final(12, Step('E', 4, 3, Step('F', 5, 21, Done))) == 21;
  }

  lemma Block70GH()
    ensures Recorded(21, 70, "GH", 2, 8)
  {
    assert RunFrom(21, 70, "GH", 0, Step('G', 6, 29, Step('H', 7, 8, Done)));
    assert Final(21, Step('G', 6, 29, Step('H', 7, 8, Done))) == 8;
  }

  lemma Block72IJ()
    ensures Recorded(8, 72, "IJ", 2, 3)
  {
    assert RunFrom(8, 72, "IJ", 0, Step('I', 8, 30, Step('J', 9, 3, Done)));
    assert Final(8, Step('I', 8, 30, Step('J', 9, 3, Done))) == 3;
  }

  lemma Block74KL()
    ensures Recorded(3, 74, "KL", 2, 5)
  {
    assert RunFrom(3, 74, "KL", 0, Step('K', 10, 29, Step('L', 11, 5, Done)));
    assert Final(3, Step('K', 10, 29, Step('L', 11, 5, Done))) == 5;
  }

  lemma Block76MN()
    ensures Recorded(5, 76, "MN", 2, 15)
  {
    assert RunFrom(5, 76, "MN", 0, Step('M', 12, 17, Step('N', 13, 15, Done)));
    assert Final(5, Step('M', 12, 17, Step('N', 13, 15, Done))) == 15;
  }

  lemma Block78OP()
    ensures Recorded(15, 78, "OP", 2, 23)
  {
    assert RunFrom(15, 78, "OP", 0, Step('O', 14, 13, Step('P', 15, 23, Done)));
    assert Final(15, Step('O', 14, 13, Step('P', 15, 23, Done))) == 23;
  }

  lemma Block80QR()
    ensures Recorded(23, 80, "QR", 2, 11)
  {
    assert RunFrom(23, 80, "QR", 0, Step('Q', 16, 8, Step('R', 17, 11, Done)));
    assert Final(23, Step('Q', 16, 8, Step('R', 17, 11, Done))) == 11;
  }

  lemma Block82ST()
    ensures Recorded(11, 82, "ST", 2, 12)
  {
    assert RunFrom(11, 82, "ST", 0, Step('S', 18, 27, Step('T', 19, 12, Done)));
    assert Final(11, Step('S', 18, 27, Step('T', 19, 12, Done))) == 12;
  }

  lemma Block84UV()
    ensures Recorded(12, 84, "UV", 2, 4)
  {
    assert RunFrom(12, 84, "UV", 0, Step('U', 20, 28, Step('V', 21, 4, Done)));
    assert Final(12, Step('U', 20, 28, Step('V', 21, 4, Done))) == 4;
  }

  lemma Block86WX()
    ensures Recorded(4, 86, "WX", 2, 27)
  {
    assert RunFrom(4, 86, "WX", 0, Step('W', 22, 19, Step('X', 23, 27, Done)));
    assert Final(4, Step('W', 22, 19, Step('X', 23, 27, Done))) == 27;
  }

  lemma Block88YZ()
    ensures Recorded(27, 88, "YZ", 2, 19)
  {
    assert RunFrom(27, 88, "YZ", 0, Step('Y', 24, 8, Step('Z', 25, 19, Done)));
    assert Final(27, Step('Y', 24, 8, Step('Z', 25, 19, Done))) == 19;
  }

  lemma Block9023()
    ensures Recorded(19, 90, "23", 2, 8)
  {
    assert RunFrom(19, 90, "23", 0, Step('2', 26, 21, Step('3', 27, 8, Done)));
    assert Final(19, Step('2', 26, 21, Step('3', 27, 8, Done))) == 8;
  }

  lemma Block924()
    ensures Recorded(8, 92, "4", 1, 20)
  {
    assert RunFrom(8, 92, "4", 0, Step('4', 28, 20, Done));
    assert Final(8, Step('4', 28, 20, Done)) == 20;
  }

  /** The weighted sum of "A" agrees with 0. */
  lemma AlphabetSum1()
    ensures SumOf("A", 1, 0)
  {
    assert "" + "A" == "A";
    EmptySum();
    Block0A();
    RunAppends("", 0, 0, "A", 1, 0);
  }

  /** The weighted sum of "AB" agrees with 6. */
  lemma AlphabetSum2()
    ensures SumOf("AB", 2, 6)
  {
    assert "" + "AB" == "AB";
    EmptySum();
    Block0AB();
    RunAppends("", 0, 0, "AB", 2, 6);
  }

  /** The weighted sum of "ABC" agrees with 17. */
  lemma AlphabetSum3()
    ensures SumOf("ABC", 3, 17)
  {
    assert "AB" + "C" == "ABC";
    AlphabetSum2();
    Block2C();
    RunAppends("AB", 6, 2, "C", 1, 17);
  }

  /** The weighted sum of "ABCD" agrees with 4. */
  lemma AlphabetSum4()
    ensures SumOf("ABCD", 4, 4)
  {
    assert "AB" + "CD" == "ABCD";
    AlphabetSum2();
    Block2CD();
    RunAppends("AB", 6, 2, "CD", 2, 4);
  }

  /** The weighted sum of "ABCDE" agrees with 15. */
  lemma AlphabetSum5()
    ensures SumOf("ABCDE", 5, 15)
  {
    assert "ABCD" + "E" == "ABCDE";
    AlphabetSum4();
    Block4E();
    RunAppends("ABCD", 4, 4, "E", 1, 15);
  }

  /** The weighted sum of "ABCDEF" agrees with 18. */
  lemma AlphabetSum6()
    ensures SumOf("ABCDEF", 6, 18)
  {
    assert "ABCD" + "EF" == "ABCDEF";
    AlphabetSum4();
    Block4EF();
    RunAppends("ABCD", 4, 4, "EF", 2, 18);
  }

  /** The weighted sum of "ABCDEFG" agrees with 0. */
  lemma AlphabetSum7()
    ensures SumOf("ABCDEFG", 7, 0)
  {
    assert "ABCDEF" + "G" == "ABCDEFG";
    AlphabetSum6();
    Block6G();
    RunAppends("ABCDEF", 18, 6, "G", 1, 0);
  }

  /** The weighted sum of "ABCDEFGH" agrees with 13. */
  lemma AlphabetSum8()
    ensures SumOf("ABCDEFGH", 8, 13)
  {
    assert "ABCDEF" + "GH" == "ABCDEFGH";
    AlphabetSum6();
    Block6GH();
    RunAppends("ABCDEF", 18, 6, "GH", 2, 13);
  }

  /** The weighted sum of "ABCDEFGHI" agrees with 16. */
  lemma AlphabetSum9()
    ensures SumOf("ABCDEFGHI", 9, 16)
  {
    assert "ABCDEFGH" + "I" == "ABCDEFGHI";
    AlphabetSum8();
    Block8I();
    RunAppends("ABCDEFGH", 13, 8, "I", 1, 16);
  }

  /** The weighted sum of "ABCDEFGHIJ" agrees with 15. */
  lemma AlphabetSum10()
    ensures SumOf("ABCDEFGHIJ", 10, 15)
  {
    assert "ABCDEFGH" + "IJ" == "ABCDEFGHIJ";
    AlphabetSum8();
    Block8IJ();
    RunAppends("ABCDEFGH", 13, 8, "IJ", 2, 15);
  }

  /** The weighted sum of "ABCDEFGHIJK" agrees with 0. */
  lemma AlphabetSum11()
    ensures SumOf("ABCDEFGHIJK", 11, 0)
  {
    assert "ABCDEFGHIJ" + "K" == "ABCDEFGHIJK";
    AlphabetSum10();
    Block10K();
    RunAppends("ABCDEFGHIJ", 15, 10, "K", 1, 0);
  }

  /** The weighted sum of "ABCDEFGHIJKL" agrees with 14. */
  lemma AlphabetSum12()
    ensures SumOf("ABCDEFGHIJKL", 12, 14)
  {
    assert "ABCDEFGHIJ" + "KL" == "ABCDEFGHIJKL";
    AlphabetSum10();
    Block10KL();
    RunAppends("ABCDEFGHIJ", 15, 10, "KL", 2, 14);
  }

  /** The weighted sum of "ABCDEFGHIJKLM" agrees with 27. */
  lemma AlphabetSum13()
    ensures SumOf("ABCDEFGHIJKLM", 13, 27)
  {
    assert "ABCDEFGHIJKL" + "M" == "ABCDEFGHIJKLM";
    AlphabetSum12();
    Block12M();
    RunAppends("ABCDEFGHIJKL", 14, 12, "M", 1, 27);
  }

  /** The weighted sum of "ABCDEFGHIJKLMN" agrees with 20. */
  lemma AlphabetSum14()
    ensures SumOf("ABCDEFGHIJKLMN", 14, 20)
  {
    assert "ABCDEFGHIJKL" + "MN" == "ABCDEFGHIJKLMN";
    AlphabetSum12();
    Block12MN();
    RunAppends("ABCDEFGHIJKL", 14, 12, "MN", 2, 20);
  }

  /** The weighted sum of "ABCDEFGHIJKLMNO" agrees with 28. */
  lemma AlphabetSum15()
    ensures SumOf("ABCDEFGHIJKLMNO", 15, 28)
  {
    assert "ABCDEFGHIJKLMN" + "O" == "ABCDEFGHIJKLMNO";
    AlphabetSum14();
    Block14O();
    RunAppends("ABCDEFGHIJKLMN", 20, 14, "O", 1, 28);
  }

  /** The weighted sum of "ABCDEFGHIJKLMNOP" agrees with 26. */
  lemma AlphabetSum16()
    ensures SumOf("ABCDEFGHIJKLMNOP", 16, 26)
  {
    assert "ABCDEFGHIJKLMN" + "OP" == "ABCDEFGHIJKLMNOP";
    AlphabetSum14();
    Block14OP();
    RunAppends("ABCDEFGHIJKLMN", 20, 14, "OP", 2, 26);
  }

  /** The weighted sum of "ABCDEFGHIJKLMNOPQ" agrees with 13. */
  lemma AlphabetSum17()
    ensures SumOf("ABCDEFGHIJKLMNOPQ", 17, 13)
  {
    assert "ABCDEFGHIJKLMNOP" + "Q" == "ABCDEFGHIJKLMNOPQ";
    AlphabetSum16();
    Block16Q();
    RunAppends("ABCDEFGHIJKLMNOP", 26, 16, "Q", 1, 13);
  }

  /** The weighted sum of "ABCDEFGHIJKLMNOPQR" agrees with 29. */
  lemma AlphabetSum18()
    ensures SumOf("ABCDEFGHIJKLMNOPQR", 18, 29)
  {
    assert "ABCDEFGHIJKLMNOP" + "QR" == "ABCDEFGHIJKLMNOPQR";
    AlphabetSum16();
    Block16QR();
    RunAppends("ABCDEFGHIJKLMNOP", 26, 16, "QR", 2, 29);
  }

  /** The weighted sum of "ABCDEFGHIJKLMNOPQRS" agrees with 1. */
  lemma AlphabetSum19()
    ensures SumOf("ABCDEFGHIJKLMNOPQRS", 19, 1)
  {
    assert "ABCDEFGHIJKLMNOPQR" + "S" == "ABCDEFGHIJKLMNOPQRS";
    AlphabetSum18();
    Block18S();
    RunAppends("ABCDEFGHIJKLMNOPQR", 29, 18, "S", 1, 1);
  }

  /** The weighted sum of "ABCDEFGHIJKLMNOPQRST" agrees with 4. */
  lemma AlphabetSum20()
    ensures SumOf("ABCDEFGHIJKLMNOPQRST", 20, 4)
  {
    assert "ABCDEFGHIJKLMNOPQR" + "ST" == "ABCDEFGHIJKLMNOPQRST";
    AlphabetSum18();
    Block18ST();
    RunAppends("ABCDEFGHIJKLMNOPQR", 29, 18, "ST", 2, 4);
  }

  /** The weighted sum of "ABCDEFGHIJKLMNOPQRSTU" agrees with 24. */
  lemma AlphabetSum21()
    ensures SumOf("ABCDEFGHIJKLMNOPQRSTU", 21, 24)
  {
    assert "ABCDEFGHIJKLMNOPQRST" + "U" == "ABCDEFGHIJKLMNOPQRSTU";
    AlphabetSum20();
    Block20U();
    RunAppends("ABCDEFGHIJKLMNOPQRST", 4, 20, "U", 1, 24);
  }

  /** The weighted sum of "ABCDEFGHIJKLMNOPQRSTUV" agrees with 22. */
  lemma AlphabetSum22()
    ensures SumOf("ABCDEFGHIJKLMNOPQRSTUV", 22, 22)
  {
    assert "ABCDEFGHIJKLMNOPQRST" + "UV" == "ABCDEFGHIJKLMNOPQRSTUV";
    AlphabetSum20();
    Block20UV();
    RunAppends("ABCDEFGHIJKLMNOPQRST", 4, 20, "UV", 2, 22);
  }

  /** The weighted sum of "ABCDEFGHIJKLMNOPQRSTUVW" agrees with 19. */
  lemma AlphabetSum23()
    ensures SumOf("ABCDEFGHIJKLMNOPQRSTUVW", 23, 19)
  {
    assert "ABCDEFGHIJKLMNOPQRSTUV" + "W" == "ABCDEFGHIJKLMNOPQRSTUVW";
    AlphabetSum22();
    Block22W();
    RunAppends("ABCDEFGHIJKLMNOPQRSTUV", 22, 22, "W", 1, 19);
  }

  /** The weighted sum of "ABCDEFGHIJKLMNOPQRSTUVWX" agrees with 1. */
  lemma AlphabetSum24()
    ensures SumOf("ABCDEFGHIJKLMNOPQRSTUVWX", 24, 1)
  {
    assert "ABCDEFGHIJKLMNOPQRSTUV" + "WX" == "ABCDEFGHIJKLMNOPQRSTUVWX";
    AlphabetSum22();
    Block22WX();
    RunAppends("ABCDEFGHIJKLMNOPQRSTUV", 22, 22, "WX", 2, 1);
  }

  /** The weighted sum of "ABCDEFGHIJKLMNOPQRSTUVWXY" agrees with 13. */
  lemma AlphabetSum25()
    ensures SumOf("ABCDEFGHIJKLMNOPQRSTUVWXY", 25, 13)
  {
    assert "ABCDEFGHIJKLMNOPQRSTUVWX" + "Y" == "ABCDEFGHIJKLMNOPQRSTUVWXY";
    AlphabetSum24();
    Block24Y();
    RunAppends("ABCDEFGHIJKLMNOPQRSTUVWX", 1, 24, "Y", 1, 13);
  }

  /** The weighted sum of "ABCDEFGHIJKLMNOPQRSTUVWXYZ" agrees with 19. */
  lemma AlphabetSum26()
    ensures SumOf("ABCDEFGHIJKLMNOPQRSTUVWXYZ", 26, 19)
  {
    assert "ABCDEFGHIJKLMNOPQRSTUVWX" + "YZ" == "ABCDEFGHIJKLMNOPQRSTUVWXYZ";
    AlphabetSum24();
    Block24YZ();
    RunAppends("ABCDEFGHIJKLMNOPQRSTUVWX", 1, 24, "YZ", 2, 19);
  }

  /** The weighted sum of "ABCDEFGHIJKLMNOPQRSTUVWXYZ2" agrees with 18. */
  lemma AlphabetSum27()
    ensures SumOf("ABCDEFGHIJKLMNOPQRSTUVWXYZ2", 27, 18)
  {
    assert "ABCDEFGHIJKLMNOPQRSTUVWXYZ" + "2" == "ABCDEFGHIJKLMNOPQRSTUVWXYZ2";
    AlphabetSum26();
    Block262();
    RunAppends("ABCDEFGHIJKLMNOPQRSTUVWXYZ", 19, 26, "2", 1, 18);
  }

  /** The weighted sum of "ABCDEFGHIJKLMNOPQRSTUVWXYZ23" agrees with 13. */
  lemma AlphabetSum28()
    ensures SumOf("ABCDEFGHIJKLMNOPQRSTUVWXYZ23", 28, 13)
  {
    assert "ABCDEFGHIJKLMNOPQRSTUVWXYZ" + "23" == "ABCDEFGHIJKLMNOPQRSTUVWXYZ23";
    AlphabetSum26();
    Block2623();
    RunAppends("ABCDEFGHIJKLMNOPQRSTUVWXYZ", 19, 26, "23", 2, 13);
  }

  /** The weighted sum of "ABCDEFGHIJKLMNOPQRSTUVWXYZ234" agrees with 10. */
  lemma AlphabetSum29()
    ensures SumOf("ABCDEFGHIJKLMNOPQRSTUVWXYZ234", 29, 10)
  {
    assert "ABCDEFGHIJKLMNOPQRSTUVWXYZ23" + "4" == "ABCDEFGHIJKLMNOPQRSTUVWXYZ234";
    AlphabetSum28();
    Block284();
    RunAppends("ABCDEFGHIJKLMNOPQRSTUVWXYZ23", 13, 28, "4", 1, 10);
  }

  /** The weighted sum of "ABCDEFGHIJKLMNOPQRSTUVWXYZ2345" agrees with 20. */
  lemma AlphabetSum30()
    ensures SumOf("ABCDEFGHIJKLMNOPQRSTUVWXYZ2345", 30, 20)
  {
    assert "ABCDEFGHIJKLMNOPQRSTUVWXYZ23" + "45" == "ABCDEFGHIJKLMNOPQRSTUVWXYZ2345";
    AlphabetSum28();
    Block2845();
    RunAppends("ABCDEFGHIJKLMNOPQRSTUVWXYZ23", 13, 28, "45", 2, 20);
  }

  /** The weighted sum of "ABCDEFGHIJKLMNOPQRSTUVWXYZ23456" agrees with 10. */
  lemma AlphabetSum31()
    ensures SumOf("ABCDEFGHIJKLMNOPQRSTUVWXYZ23456", 31, 10)
  {
    assert "ABCDEFGHIJKLMNOPQRSTUVWXYZ2345" + "6" == "ABCDEFGHIJKLMNOPQRSTUVWXYZ23456";
    AlphabetSum30();
    Block306();
    RunAppends("ABCDEFGHIJKLMNOPQRSTUVWXYZ2345", 20, 30, "6", 1, 10);
  }

  /** The weighted sum of "ABCDEFGHIJKLMNOPQRSTUVWXYZ234567" agrees with 20. */
  lemma AlphabetSum32()
    ensures SumOf("ABCDEFGHIJKLMNOPQRSTUVWXYZ234567", 32, 20)
  {
    assert "ABCDEFGHIJKLMNOPQRSTUVWXYZ2345" + "67" == "ABCDEFGHIJKLMNOPQRSTUVWXYZ234567";
    AlphabetSum30();
    Block3067();
    RunAppends("ABCDEFGHIJKLMNOPQRSTUVWXYZ2345", 20, 30, "67", 2, 20);
  }

  /** The weighted sum of "ABCDEFGHIJKLMNOPQRSTUVWXYZ234567AB" agrees with 25. */
  lemma AlphabetSum34()
    ensures SumOf("ABCDEFGHIJKLMNOPQRSTUVWXYZ234567AB", 34, 25)
  {
    assert "ABCDEFGHIJKLMNOPQRSTUVWXYZ234567" + "AB" == "ABCDEFGHIJKLMNOPQRSTUVWXYZ234567AB";
    AlphabetSum32();
    Block32AB();
    RunAppends("ABCDEFGHIJKLMNOPQRSTUVWXYZ234567", 20, 32, "AB", 2, 25);
  }

  /** The weighted sum of "ABCDEFGHIJKLMNOPQRSTUVWXYZ234567ABCD" agrees with 28. */
  lemma AlphabetSum36()
    ensures SumOf("ABCDEFGHIJKLMNOPQRSTUVWXYZ234567ABCD", 36, 28)
  {
    assert "ABCDEFGHIJKLMNOPQRSTUVWXYZ234567AB" + "CD" == "ABCDEFGHIJKLMNOPQRSTUVWXYZ234567ABCD";
    AlphabetSum34();
    Block34CD();
    RunAppends("ABCDEFGHIJKLMNOPQRSTUVWXYZ234567AB", 25, 34, "CD", 2, 28);
  }

  /** The weighted sum of "ABCDEFGHIJKLMNOPQRSTUVWXYZ234567ABCDEF" agrees with 16. */
  lemma AlphabetSum38()
    ensures SumOf("ABCDEFGHIJKLMNOPQRSTUVWXYZ234567ABCDEF", 38, 16)
  {
    assert "ABCDEFGHIJKLMNOPQRSTUVWXYZ234567ABCD" + "EF" == "ABCDEFGHIJKLMNOPQRSTUVWXYZ234567ABCDEF";
    AlphabetSum36();
    Block36EF();
    RunAppends("ABCDEFGHIJKLMNOPQRSTUVWXYZ234567ABCD", 28, 36, "EF", 2, 16);
  }

  /** The weighted sum of "ABCDEFGHIJKLMNOPQRSTUVWXYZ234567ABCDEFGH" agrees with 14. */
  lemma AlphabetSum40()
    ensures SumOf("ABCDEFGHIJKLMNOPQRSTUVWXYZ234567ABCDEFGH", 40, 14)
  {
    assert "ABCDEFGHIJKLMNOPQRSTUVWXYZ234567ABCDEF" + "GH" == "ABCDEFGHIJKLMNOPQRSTUVWXYZ234567ABCDEFGH";
    AlphabetSum38();
    Block38GH();
    RunAppends("ABCDEFGHIJKLMNOPQRSTUVWXYZ234567ABCDEF", 16, 38, "GH", 2, 14);
  }

  /** The weighted sum of "ABCDEFGHIJKLMNOPQRSTUVWXYZ234567ABCDEFGHIJ" agrees with 11. */
  lemma AlphabetSum42()
    ensures SumOf("ABCDEFGHIJKLMNOPQRSTUVWXYZ234567ABCDEFGHIJ", 42, 11)
  {
    assert "ABCDEFGHIJKLMNOPQRSTUVWXYZ234567ABCDEFGH" + "IJ" == "ABCDEFGHIJKLMNOPQRSTUVWXYZ234567ABCDEFGHIJ";
    AlphabetSum40();
    Block40IJ();
    RunAppends("ABCDEFGHIJKLMNOPQRSTUVWXYZ234567ABCDEFGH", 14, 40, "IJ", 2, 11);
  }

  /** The weighted sum of "ABCDEFGHIJKLMNOPQRSTUVWXYZ234567ABCDEFGHIJKL" agrees with 8. */
  lemma AlphabetSum44()
    ensures SumOf("ABCDEFGHIJKLMNOPQRSTUVWXYZ234567ABCDEFGHIJKL", 44, 8)
  {
    assert "ABCDEFGHIJKLMNOPQRSTUVWXYZ234567ABCDEFGHIJ" + "KL" == "ABCDEFGHIJKLMNOPQRSTUVWXYZ234567ABCDEFGHIJKL";
    AlphabetSum42();
    Block42KL();
    RunAppends("ABCDEFGHIJKLMNOPQRSTUVWXYZ234567ABCDEFGHIJ", 11, 42, "KL", 2, 8);
  }

  /** The weighted sum of "ABCDEFGHIJKLMNOPQRSTUVWXYZ234567ABCDEFGHIJKLMN" agrees with 29. */
  lemma AlphabetSum46()
    ensures SumOf("ABCDEFGHIJKLMNOPQRSTUVWXYZ234567ABCDEFGHIJKLMN", 46, 29)
  {
    assert "ABCDEFGHIJKLMNOPQRSTUVWXYZ234567ABCDEFGHIJKL" + "MN" == "ABCDEFGHIJKLMNOPQRSTUVWXYZ234567ABCDEFGHIJKLMN";
    AlphabetSum44();
    Block44MN();
    RunAppends("ABCDEFGHIJKLMNOPQRSTUVWXYZ234567ABCDEFGHIJKL", 8, 44, "MN", 2, 29);
  }

  /** The weighted sum of "ABCDEFGHIJKLMNOPQRSTUVWXYZ234567ABCDEFGHIJKLMNOP" agrees with 1. */
  lemma AlphabetSum48()
    ensures SumOf("ABCDEFGHIJKLMNOPQRSTUVWXYZ234567ABCDEFGHIJKLMNOP", 48, 1)
  {
    assert "ABCDEFGHIJKLMNOPQRSTUVWXYZ234567ABCDEFGHIJKLMN" + "OP" == "ABCDEFGHIJKLMNOPQRSTUVWXYZ234567ABCDEFGHIJKLMNOP";
    AlphabetSum46();
    Block46OP();
    RunAppends("ABCDEFGHIJKLMNOPQRSTUVWXYZ234567ABCDEFGHIJKLMN", 29, 46, "OP", 2, 1);
  }

  /** The weighted sum of "ABCDEFGHIJKLMNOPQRSTUVWXYZ234567ABCDEFGHIJKLMNOPQR" agrees with 15. */
  lemma AlphabetSum50()
    ensures SumOf("ABCDEFGHIJKLMNOPQRSTUVWXYZ234567ABCDEFGHIJKLMNOPQR", 50, 15)
  {
    assert "ABCDEFGHIJKLMNOPQRSTUVWXYZ234567ABCDEFGHIJKLMNOP" + "QR" == "ABCDEFGHIJKLMNOPQRSTUVWXYZ234567ABCDEFGHIJKLMNOPQR";
    AlphabetSum48();
    Block48QR();
    RunAppends("ABCDEFGHIJKLMNOPQRSTUVWXYZ234567ABCDEFGHIJKLMNOP", 1, 48, "QR", 2, 15);
  }

  /** The weighted sum of "ABCDEFGHIJKLMNOPQRSTUVWXYZ234567ABCDEFGHIJKLMNOPQRST" agrees with 28. */
  lemma AlphabetSum52()
    ensures SumOf("ABCDEFGHIJKLMNOPQRSTUVWXYZ234567ABCDEFGHIJKLMNOPQRST", 52, 28)
  {
    assert "ABCDEFGHIJKLMNOPQRSTUVWXYZ234567ABCDEFGHIJKLMNOPQR" + "ST" == "ABCDEFGHIJKLMNOPQRSTUVWXYZ234567ABCDEFGHIJKLMNOPQRST";
    AlphabetSum50();
    Block50ST();
    RunAppends("ABCDEFGHIJKLMNOPQRSTUVWXYZ234567ABCDEFGHIJKLMNOPQR", 15, 50, "ST", 2, 28);
  }

  /** The weighted sum of "ABCDEFGHIJKLMNOPQRSTUVWXYZ234567ABCDEFGHIJKLMNOPQRSTUV" agrees with 24. */
  lemma AlphabetSum54()
    ensures SumOf("ABCDEFGHIJKLMNOPQRSTUVWXYZ234567ABCDEFGHIJKLMNOPQRSTUV", 54, 24)
  {
    assert "ABCDEFGHIJKLMNOPQRSTUVWXYZ234567ABCDEFGHIJKLMNOPQRST" + "UV" == "ABCDEFGHIJKLMNOPQRSTUVWXYZ234567ABCDEFGHIJKLMNOPQRSTUV";
    AlphabetSum52();
    Block52UV();
    RunAppends("ABCDEFGHIJKLMNOPQRSTUVWXYZ234567ABCDEFGHIJKLMNOPQRST", 28, 52, "UV", 2, 24);
  }

  /** The weighted sum of "ABCDEFGHIJKLMNOPQRSTUVWXYZ234567ABCDEFGHIJKLMNOPQRSTUVWX" agrees with 23. */
  lemma AlphabetSum56()
    ensures SumOf("ABCDEFGHIJKLMNOPQRSTUVWXYZ234567ABCDEFGHIJKLMNOPQRSTUVWX", 56, 23)
  {
    assert "ABCDEFGHIJKLMNOPQRSTUVWXYZ234567ABCDEFGHIJKLMNOPQRSTUV" + "WX" == "ABCDEFGHIJKLMNOPQRSTUVWXYZ234567ABCDEFGHIJKLMNOPQRSTUVWX";
    AlphabetSum54();
    Block54WX();
    RunAppends("ABCDEFGHIJKLMNOPQRSTUVWXYZ234567ABCDEFGHIJKLMNOPQRSTUV", 24, 54, "WX", 2, 23);
  }

  /** The weighted sum of "ABCDEFGHIJKLMNOPQRSTUVWXYZ234567ABCDEFGHIJKLMNOPQRSTUVWXYZ" agrees with 19. */
  lemma AlphabetSum58()
    ensures SumOf("ABCDEFGHIJKLMNOPQRSTUVWXYZ234567ABCDEFGHIJKLMNOPQRSTUVWXYZ", 58, 19)
  {
    assert "ABCDEFGHIJKLMNOPQRSTUVWXYZ234567ABCDEFGHIJKLMNOPQRSTUVWX" + "YZ" == "ABCDEFGHIJKLMNOPQRSTUVWXYZ234567ABCDEFGHIJKLMNOPQRSTUVWXYZ";
    AlphabetSum56();
    Block56YZ();
    RunAppends("ABCDEFGHIJKLMNOPQRSTUVWXYZ234567ABCDEFGHIJKLMNOPQRSTUVWX", 23, 56, "YZ", 2, 19);
  }

  /** The weighted sum of "ABCDEFGHIJKLMNOPQRSTUVWXYZ234567ABCDEFGHIJKLMNOPQRSTUVWXYZ23" agrees with 14. */
  lemma AlphabetSum60()
    ensures SumOf("ABCDEFGHIJKLMNOPQRSTUVWXYZ234567ABCDEFGHIJKLMNOPQRSTUVWXYZ23", 60, 14)
  {
    assert "ABCDEFGHIJKLMNOPQRSTUVWXYZ234567ABCDEFGHIJKLMNOPQRSTUVWXYZ" + "23" == "ABCDEFGHIJKLMNOPQRSTUVWXYZ234567ABCDEFGHIJKLMNOPQRSTUVWXYZ23";
    AlphabetSum58();
    Block5823();
    RunAppends("ABCDEFGHIJKLMNOPQRSTUVWXYZ234567ABCDEFGHIJKLMNOPQRSTUVWXYZ", 19, 58, "23", 2, 14);
  }

  /** The weighted sum of "ABCDEFGHIJKLMNOPQRSTUVWXYZ234567ABCDEFGHIJKLMNOPQRSTUVWXYZ2345" agrees with 29. */
  lemma AlphabetSum62()
    ensures SumOf("ABCDEFGHIJKLMNOPQRSTUVWXYZ234567ABCDEFGHIJKLMNOPQRSTUVWXYZ2345", 62, 29)
  {
    assert "ABCDEFGHIJKLMNOPQRSTUVWXYZ234567ABCDEFGHIJKLMNOPQRSTUVWXYZ23" + "45" == "ABCDEFGHIJKLMNOPQRSTUVWXYZ234567ABCDEFGHIJKLMNOPQRSTUVWXYZ2345";
    AlphabetSum60();
    Block6045();
    RunAppends("ABCDEFGHIJKLMNOPQRSTUVWXYZ234567ABCDEFGHIJKLMNOPQRSTUVWXYZ23", 14, 60, "45", 2, 29);
  }

  /** The weighted sum of "ABCDEFGHIJKLMNOPQRSTUVWXYZ234567ABCDEFGHIJKLMNOPQRSTUVWXYZ234567" agrees with 29. */
  lemma AlphabetSum64()
    ensures SumOf("ABCDEFGHIJKLMNOPQRSTUVWXYZ234567ABCDEFGHIJKLMNOPQRSTUVWXYZ234567", 64, 29)
  {
    assert "ABCDEFGHIJKLMNOPQRSTUVWXYZ234567ABCDEFGHIJKLMNOPQRSTUVWXYZ2345" + "67" == "ABCDEFGHIJKLMNOPQRSTUVWXYZ234567ABCDEFGHIJKLMNOPQRSTUVWXYZ234567";
    AlphabetSum62();
    Block6267();
    RunAppends("ABCDEFGHIJKLMNOPQRSTUVWXYZ234567ABCDEFGHIJKLMNOPQRSTUVWXYZ2345", 29, 62, "67", 2, 29);
  }

  /** The weighted sum of "ABCDEFGHIJKLMNOPQRSTUVWXYZ234567ABCDEFGHIJKLMNOPQRSTUVWXYZ234567AB" agrees with 7. */
  lemma AlphabetSum66()
    ensures SumOf("ABCDEFGHIJKLMNOPQRSTUVWXYZ234567ABCDEFGHIJKLMNOPQRSTUVWXYZ234567AB", 66, 7)
  {
    assert "ABCDEFGHIJKLMNOPQRSTUVWXYZ234567ABCDEFGHIJKLMNOPQRSTUVWXYZ234567" + "AB" == "ABCDEFGHIJKLMNOPQRSTUVWXYZ234567ABCDEFGHIJKLMNOPQRSTUVWXYZ234567AB";
    AlphabetSum64();
    Block64AB();
    RunAppends("ABCDEFGHIJKLMNOPQRSTUVWXYZ234567ABCDEFGHIJKLMNOPQRSTUVWXYZ234567", 29, 64, "AB", 2, 7);
  }

  /** The weighted sum of "ABCDEFGHIJKLMNOPQRSTUVWXYZ234567ABCDEFGHIJKLMNOPQRSTUVWXYZ234567ABCD" agrees with 12. */
  lemma AlphabetSum68()
    ensures SumOf("ABCDEFGHIJKLMNOPQRSTUVWXYZ234567ABCDEFGHIJKLMNOPQRSTUVWXYZ234567ABCD", 68, 12)
  {
    assert "ABCDEFGHIJKLMNOPQRSTUVWXYZ234567ABCDEFGHIJKLMNOPQRSTUVWXYZ234567AB" + "CD" == "ABCDEFGHIJKLMNOPQRSTUVWXYZ234567ABCDEFGHIJKLMNOPQRSTUVWXYZ234567ABCD";
    AlphabetSum66();
    Block66CD();
    RunAppends("ABCDEFGHIJKLMNOPQRSTUVWXYZ234567ABCDEFGHIJKLMNOPQRSTUVWXYZ234567AB", 7, 66, "CD", 2, 12);
  }

  /** The weighted sum of "ABCDEFGHIJKLMNOPQRSTUVWXYZ234567ABCDEFGHIJKLMNOPQRSTUVWXYZ234567ABCDEF" agrees with 21. */
  lemma AlphabetSum70()
    ensures SumOf("ABCDEFGHIJKLMNOPQRSTUVWXYZ234567ABCDEFGHIJKLMNOPQRSTUVWXYZ234567ABCDEF", 70, 21)
  {
    assert "ABCDEFGHIJKLMNOPQRSTUVWXYZ234567ABCDEFGHIJKLMNOPQRSTUVWXYZ234567ABCD" + "EF" == "ABCDEFGHIJKLMNOPQRSTUVWXYZ234567ABCDEFGHIJKLMNOPQRSTUVWXYZ234567ABCDEF";
    AlphabetSum68();
    Block68EF();
    RunAppends("ABCDEFGHIJKLMNOPQRSTUVWXYZ234567ABCDEFGHIJKLMNOPQRSTUVWXYZ234567ABCD", 12, 68, "EF", 2, 21);
  }

  /** The weighted sum of "ABCDEFGHIJKLMNOPQRSTUVWXYZ234567ABCDEFGHIJKLMNOPQRSTUVWXYZ234567ABCDEFGH" agrees with 8. */
  lemma AlphabetSum72()
    ensures SumOf("ABCDEFGHIJKLMNOPQRSTUVWXYZ234567ABCDEFGHIJKLMNOPQRSTUVWXYZ234567ABCDEFGH", 72, 8)
  {
    assert "ABCDEFGHIJKLMNOPQRSTUVWXYZ234567ABCDEFGHIJKLMNOPQRSTUVWXYZ234567ABCDEF" + "GH" == "ABCDEFGHIJKLMNOPQRSTUVWXYZ234567ABCDEFGHIJKLMNOPQRSTUVWXYZ234567ABCDEFGH";
    AlphabetSum70();
    Block70GH();
    RunAppends("ABCDEFGHIJKLMNOPQRSTUVWXYZ234567ABCDEFGHIJKLMNOPQRSTUVWXYZ234567ABCDEF", 21, 70, "GH", 2, 8);
  }

  /** The weighted sum of "ABCDEFGHIJKLMNOPQRSTUVWXYZ234567ABCDEFGHIJKLMNOPQRSTUVWXYZ234567ABCDEFGHIJ" agrees with 3. */
  lemma AlphabetSum74()
    ensures SumOf("ABCDEFGHIJKLMNOPQRSTUVWXYZ234567ABCDEFGHIJKLMNOPQRSTUVWXYZ234567ABCDEFGHIJ", 74, 3)
  {
    assert "ABCDEFGHIJKLMNOPQRSTUVWXYZ234567ABCDEFGHIJKLMNOPQRSTUVWXYZ234567ABCDEFGH" + "IJ" == "ABCDEFGHIJKLMNOPQRSTUVWXYZ234567ABCDEFGHIJKLMNOPQRSTUVWXYZ234567ABCDEFGHIJ";
    AlphabetSum72();
    Block72IJ();
    RunAppends("ABCDEFGHIJKLMNOPQRSTUVWXYZ234567ABCDEFGHIJKLMNOPQRSTUVWXYZ234567ABCDEFGH", 8, 72, "IJ", 2, 3);
  }

  /** The weighted sum of "ABCDEFGHIJKLMNOPQRSTUVWXYZ234567ABCDEFGHIJKLMNOPQRSTUVWXYZ234567ABCDEFGHIJKL" agrees with 5. */
  lemma AlphabetSum76()
    ensures SumOf("ABCDEFGHIJKLMNOPQRSTUVWXYZ234567ABCDEFGHIJKLMNOPQRSTUVWXYZ234567ABCDEFGHIJKL", 76, 5)
  {
    assert "ABCDEFGHIJKLMNOPQRSTUVWXYZ234567ABCDEFGHIJKLMNOPQRSTUVWXYZ234567ABCDEFGHIJ" + "KL" == "ABCDEFGHIJKLMNOPQRSTUVWXYZ234567ABCDEFGHIJKLMNOPQRSTUVWXYZ234567ABCDEFGHIJKL";
    AlphabetSum74();
    Block74KL();
    RunAppends("ABCDEFGHIJKLMNOPQRSTUVWXYZ234567ABCDEFGHIJKLMNOPQRSTUVWXYZ234567ABCDEFGHIJ", 3, 74, "KL", 2, 5);
  }

  /** The weighted sum of "ABCDEFGHIJKLMNOPQRSTUVWXYZ234567ABCDEFGHIJKLMNOPQRSTUVWXYZ234567ABCDEFGHIJKLMN" agrees with 15. */
  lemma AlphabetSum78()
    ensures SumOf("ABCDEFGHIJKLMNOPQRSTUVWXYZ234567ABCDEFGHIJKLMNOPQRSTUVWXYZ234567ABCDEFGHIJKLMN", 78, 15)
  {
    assert "ABCDEFGHIJKLMNOPQRSTUVWXYZ234567ABCDEFGHIJKLMNOPQRSTUVWXYZ234567ABCDEFGHIJKL" + "MN" == "ABCDEFGHIJKLMNOPQRSTUVWXYZ234567ABCDEFGHIJKLMNOPQRSTUVWXYZ234567ABCDEFGHIJKLMN";
    AlphabetSum76();
    Block76MN();
    RunAppends("ABCDEFGHIJKLMNOPQRSTUVWXYZ234567ABCDEFGHIJKLMNOPQRSTUVWXYZ234567ABCDEFGHIJKL", 5, 76, "MN", 2, 15);
  }

  /** The weighted sum of "ABCDEFGHIJKLMNOPQRSTUVWXYZ234567ABCDEFGHIJKLMNOPQRSTUVWXYZ234567ABCDEFGHIJKLMNOP" agrees with 23. */
  lemma AlphabetSum80()
    ensures SumOf("ABCDEFGHIJKLMNOPQRSTUVWXYZ234567ABCDEFGHIJKLMNOPQRSTUVWXYZ234567ABCDEFGHIJKLMNOP", 80, 23)
  {
    assert "ABCDEFGHIJKLMNOPQRSTUVWXYZ234567ABCDEFGHIJKLMNOPQRSTUVWXYZ234567ABCDEFGHIJKLMN" + "OP" == "ABCDEFGHIJKLMNOPQRSTUVWXYZ234567ABCDEFGHIJKLMNOPQRSTUVWXYZ234567ABCDEFGHIJKLMNOP";
    AlphabetSum78();
    Block78OP();
    RunAppends("ABCDEFGHIJKLMNOPQRSTUVWXYZ234567ABCDEFGHIJKLMNOPQRSTUVWXYZ234567ABCDEFGHIJKLMN", 15, 78, "OP", 2, 23);
  }

  /** The weighted sum of "ABCDEFGHIJKLMNOPQRSTUVWXYZ234567ABCDEFGHIJKLMNOPQRSTUVWXYZ234567ABCDEFGHIJKLMNOPQR" agrees with 11. */
  lemma AlphabetSum82()
    ensures SumOf("ABCDEFGHIJKLMNOPQRSTUVWXYZ234567ABCDEFGHIJKLMNOPQRSTUVWXYZ234567ABCDEFGHIJKLMNOPQR", 82, 11)
  {
    assert "ABCDEFGHIJKLMNOPQRSTUVWXYZ234567ABCDEFGHIJKLMNOPQRSTUVWXYZ234567ABCDEFGHIJKLMNOP" + "QR" == "ABCDEFGHIJKLMNOPQRSTUVWXYZ234567ABCDEFGHIJKLMNOPQRSTUVWXYZ234567ABCDEFGHIJKLMNOPQR";
    AlphabetSum80();
    Block80QR();
    RunAppends("ABCDEFGHIJKLMNOPQRSTUVWXYZ234567ABCDEFGHIJKLMNOPQRSTUVWXYZ234567ABCDEFGHIJKLMNOP", 23, 80, "QR", 2, 11);
  }

  /** The weighted sum of "ABCDEFGHIJKLMNOPQRSTUVWXYZ234567ABCDEFGHIJKLMNOPQRSTUVWXYZ234567ABCDEFGHIJKLMNOPQRST" agrees with 12. */
  lemma AlphabetSum84()
    ensures SumOf("ABCDEFGHIJKLMNOPQRSTUVWXYZ234567ABCDEFGHIJKLMNOPQRSTUVWXYZ234567ABCDEFGHIJKLMNOPQRST", 84, 12)
  {
    assert "ABCDEFGHIJKLMNOPQRSTUVWXYZ234567ABCDEFGHIJKLMNOPQRSTUVWXYZ234567ABCDEFGHIJKLMNOPQR" + "ST" == "ABCDEFGHIJKLMNOPQRSTUVWXYZ234567ABCDEFGHIJKLMNOPQRSTUVWXYZ234567ABCDEFGHIJKLMNOPQRST";
    AlphabetSum82();
    Block82ST();
    RunAppends("ABCDEFGHIJKLMNOPQRSTUVWXYZ234567ABCDEFGHIJKLMNOPQRSTUVWXYZ234567ABCDEFGHIJKLMNOPQR", 11, 82, "ST", 2, 12);
  }

  /** The weighted sum of "ABCDEFGHIJKLMNOPQRSTUVWXYZ234567ABCDEFGHIJKLMNOPQRSTUVWXYZ234567ABCDEFGHIJKLMNOPQRSTUV" agrees with 4. */
  lemma AlphabetSum86()
    ensures SumOf("ABCDEFGHIJKLMNOPQRSTUVWXYZ234567ABCDEFGHIJKLMNOPQRSTUVWXYZ234567ABCDEFGHIJKLMNOPQRSTUV", 86, 4)
  {
    assert "ABCDEFGHIJKLMNOPQRSTUVWXYZ234567ABCDEFGHIJKLMNOPQRSTUVWXYZ234567ABCDEFGHIJKLMNOPQRST" + "UV" == "ABCDEFGHIJKLMNOPQRSTUVWXYZ234567ABCDEFGHIJKLMNOPQRSTUVWXYZ234567ABCDEFGHIJKLMNOPQRSTUV";
    AlphabetSum84();
    Block84UV();
    RunAppends("ABCDEFGHIJKLMNOPQRSTUVWXYZ234567ABCDEFGHIJKLMNOPQRSTUVWXYZ234567ABCDEFGHIJKLMNOPQRST", 12, 84, "UV", 2, 4);
  }

  /** The weighted sum of "ABCDEFGHIJKLMNOPQRSTUVWXYZ234567ABCDEFGHIJKLMNOPQRSTUVWXYZ234567ABCDEFGHIJKLMNOPQRSTUVWX" agrees with 27. */
  lemma AlphabetSum88()
    ensures SumOf("ABCDEFGHIJKLMNOPQRSTUVWXYZ234567ABCDEFGHIJKLMNOPQRSTUVWXYZ234567ABCDEFGHIJKLMNOPQRSTUVWX", 88, 27)
  {
    assert "ABCDEFGHIJKLMNOPQRSTUVWXYZ234567ABCDEFGHIJKLMNOPQRSTUVWXYZ234567ABCDEFGHIJKLMNOPQRSTUV" + "WX" == "ABCDEFGHIJKLMNOPQRSTUVWXYZ234567ABCDEFGHIJKLMNOPQRSTUVWXYZ234567ABCDEFGHIJKLMNOPQRSTUVWX";
    AlphabetSum86();
    Block86WX();
    RunAppends("ABCDEFGHIJKLMNOPQRSTUVWXYZ234567ABCDEFGHIJKLMNOPQRSTUVWXYZ234567ABCDEFGHIJKLMNOPQRSTUV", 4, 86, "WX", 2, 27);
  }

  /** The weighted sum of "ABCDEFGHIJKLMNOPQRSTUVWXYZ234567ABCDEFGHIJKLMNOPQRSTUVWXYZ234567ABCDEFGHIJKLMNOPQRSTUVWXYZ" agrees with 19. */
  lemma AlphabetSum90()
    ensures SumOf("ABCDEFGHIJKLMNOPQRSTUVWXYZ234567ABCDEFGHIJKLMNOPQRSTUVWXYZ234567ABCDEFGHIJKLMNOPQRSTUVWXYZ", 90, 19)
  {
    assert "ABCDEFGHIJKLMNOPQRSTUVWXYZ234567ABCDEFGHIJKLMNOPQRSTUVWXYZ234567ABCDEFGHIJKLMNOPQRSTUVWX" + "YZ" == "ABCDEFGHIJKLMNOPQRSTUVWXYZ234567ABCDEFGHIJKLMNOPQRSTUVWXYZ234567ABCDEFGHIJKLMNOPQRSTUVWXYZ";
    AlphabetSum88();
    Block88YZ();
    RunAppends("ABCDEFGHIJKLMNOPQRSTUVWXYZ234567ABCDEFGHIJKLMNOPQRSTUVWXYZ234567ABCDEFGHIJKLMNOPQRSTUVWX", 27, 88, "YZ", 2, 19);
  }

  /** The weighted sum of "ABCDEFGHIJKLMNOPQRSTUVWXYZ234567ABCDEFGHIJKLMNOPQRSTUVWXYZ234567ABCDEFGHIJKLMNOPQRSTUVWXYZ23" agrees with 8. */
  lemma AlphabetSum92()
    ensures SumOf("ABCDEFGHIJKLMNOPQRSTUVWXYZ234567ABCDEFGHIJKLMNOPQRSTUVWXYZ234567ABCDEFGHIJKLMNOPQRSTUVWXYZ23", 92, 8)
  {
    assert "ABCDEFGHIJKLMNOPQRSTUVWXYZ234567ABCDEFGHIJKLMNOPQRSTUVWXYZ234567ABCDEFGHIJKLMNOPQRSTUVWXYZ" + "23" == "ABCDEFGHIJKLMNOPQRSTUVWXYZ234567ABCDEFGHIJKLMNOPQRSTUVWXYZ234567ABCDEFGHIJKLMNOPQRSTUVWXYZ23";
    AlphabetSum90();
    Block9023();
    RunAppends("ABCDEFGHIJKLMNOPQRSTUVWXYZ234567ABCDEFGHIJKLMNOPQRSTUVWXYZ234567ABCDEFGHIJKLMNOPQRSTUVWXYZ", 19, 90, "23", 2, 8);
  }

  /** The weighted sum of "ABCDEFGHIJKLMNOPQRSTUVWXYZ234567ABCDEFGHIJKLMNOPQRSTUVWXYZ234567ABCDEFGHIJKLMNOPQRSTUVWXYZ234" agrees with 20. */
  lemma AlphabetSum93()
    ensures SumOf("ABCDEFGHIJKLMNOPQRSTUVWXYZ234567ABCDEFGHIJKLMNOPQRSTUVWXYZ234567ABCDEFGHIJKLMNOPQRSTUVWXYZ234", 93, 20)
  {
    assert "ABCDEFGHIJKLMNOPQRSTUVWXYZ234567ABCDEFGHIJKLMNOPQRSTUVWXYZ234567ABCDEFGHIJKLMNOPQRSTUVWXYZ23" + "4" == "ABCDEFGHIJKLMNOPQRSTUVWXYZ234567ABCDEFGHIJKLMNOPQRSTUVWXYZ234567ABCDEFGHIJKLMNOPQRSTUVWXYZ234";
    AlphabetSum92();
    Block924();
    RunAppends("ABCDEFGHIJKLMNOPQRSTUVWXYZ234567ABCDEFGHIJKLMNOPQRSTUVWXYZ234567ABCDEFGHIJKLMNOPQRSTUVWXYZ23", 8, 92, "4", 1, 20);
  }

  /** The weighted sum of "CA" agrees with 5. */
  lemma CafeBabeSum2()
    ensures SumOf("CA", 2, 5)
  {
    assert "" + "CA" == "CA";
    EmptySum();
    Block0CA();
    RunAppends("", 0, 0, "CA", 2, 5);
  }

  /** The weighted sum of "CAFE" agrees with 15. */
  lemma CafeBabeSum4()
    ensures SumOf("CAFE", 4, 15)
  {
    assert "CA" + "FE" == "CAFE";
    CafeBabeSum2();
    Block2FE();
    RunAppends("CA", 5, 2, "FE", 2, 15);
  }

  /** The weighted sum of "CAFEBA" agrees with 26. */
  lemma CafeBabeSum6()
    ensures SumOf("CAFEBA", 6, 26)
  {
    assert "CAFE" + "BA" == "CAFEBA";
    CafeBabeSum4();
    Block4BA();
    RunAppends("CAFE", 15, 4, "BA", 2, 26);
  }

  /** The weighted sum of "CAFEBABE" agrees with 17. */
  lemma CafeBabeSum8()
    ensures SumOf("CAFEBABE", 8, 17)
  {
    assert "CAFEBA" + "BE" == "CAFEBABE";
    CafeBabeSum6();
    Block6BE();
    RunAppends("CAFEBA", 26, 6, "BE", 2, 17);
  }

  /** The weighted sum of "CAFEDE" agrees with 18. */
  lemma CafeDeadSum6()
    ensures SumOf("CAFEDE", 6, 18)
  {
    assert "CAFE" + "DE" == "CAFEDE";
    CafeBabeSum4();
    Block4DE();
    RunAppends("CAFE", 15, 4, "DE", 2, 18);
  }

  /** The weighted sum of "CAFEDEAD" agrees with 0. */
  lemma CafeDeadSum8()
    ensures SumOf("CAFEDEAD", 8, 0)
  {
    assert "CAFEDE" + "AD" == "CAFEDEAD";
    CafeDeadSum6();
    Block6AD();
    RunAppends("CAFEDE", 18, 6, "AD", 2, 0);
  }

  /** The weighted sum of "CO" agrees with 29. */
  lemma ConsecratioSum2()
    ensures SumOf("CO", 2, 29)
  {
    assert "" + "CO" == "CO";
    EmptySum();
    Block0CO();
    RunAppends("", 0, 0, "CO", 2, 29);
  }

  /** The weighted sum of "CONS" agrees with 21. */
  lemma ConsecratioSum4()
    ensures SumOf("CONS", 4, 21)
  {
    assert "CO" + "NS" == "CONS";
    ConsecratioSum2();
    Block2NS();
    RunAppends("CO", 29, 2, "NS", 2, 21);
  }

  /** The weighted sum of "CONSEC" agrees with 0. */
  lemma ConsecratioSum6()
    ensures SumOf("CONSEC", 6, 0)
  {
    assert "CONS" + "EC" == "CONSEC";
    ConsecratioSum4();
    Block4EC();
    RunAppends("CONS", 21, 4, "EC", 2, 0);
  }

  /** The weighted sum of "CONSECRA" agrees with 30. */
  lemma ConsecratioSum8()
    ensures SumOf("CONSECRA", 8, 30)
  {
    assert "CONSEC" + "RA" == "CONSECRA";
    ConsecratioSum6();
    Block6RA();
    RunAppends("CONSEC", 0, 6, "RA", 2, 30);
  }

  /** The weighted sum of "CONSECRATI" agrees with 8. */
  lemma ConsecratioSum10()
    ensures SumOf("CONSECRATI", 10, 8)
  {
    assert "CONSECRA" + "TI" == "CONSECRATI";
    ConsecratioSum8();
    Block8TI();
    RunAppends("CONSECRA", 30, 8, "TI", 2, 8);
  }

  /** The weighted sum of "CONSECRATIO" agrees with 28. */
  lemma ConsecratioSum11()
    ensures SumOf("CONSECRATIO", 11, 28)
  {
    assert "CONSECRATI" + "O" == "CONSECRATIO";
    ConsecratioSum10();
    Block10O();
    RunAppends("CONSECRATI", 8, 10, "O", 1, 28);
  }

  /** The weighted sum of "DE" agrees with 23. */
  lemma DeadBeefSum2()
    ensures SumOf("DE", 2, 23)
  {
    assert "" + "DE" == "DE";
    EmptySum();
    Block0DE();
    RunAppends("", 0, 0, "DE", 2, 23);
  }

  /** The weighted sum of "DEAD" agrees with 2. */
  lemma DeadBeefSum4()
    ensures SumOf("DEAD", 4, 2)
  {
    assert "DE" + "AD" == "DEAD";
    DeadBeefSum2();
    Block2AD();
    RunAppends("DE", 23, 2, "AD", 2, 2);
  }

  /** The weighted sum of "DEADBE" agrees with 0. */
  lemma DeadBeefSum6()
    ensures SumOf("DEADBE", 6, 0)
  {
    assert "DEAD" + "BE" == "DEADBE";
    DeadBeefSum4();
    Block4BE();
    RunAppends("DEAD", 2, 4, "BE", 2, 0);
  }

  /** The weighted sum of "DEADBEEF" agrees with 25. */
  lemma DeadBeefSum8()
    ensures SumOf("DEADBEEF", 8, 25)
  {
    assert "DEADBE" + "EF" == "DEADBEEF";
    DeadBeefSum6();
    Block6EF();
    RunAppends("DEADBE", 0, 6, "EF", 2, 25);
  }

  /** The weighted sum of "23" agrees with 25. */
  lemma DigitsSum2()
    ensures SumOf("23", 2, 25)
  {
    assert "" + "23" == "23";
    EmptySum();
    Block023();
    RunAppends("", 0, 0, "23", 2, 25);
  }

  /** The weighted sum of "2345" agrees with 1. */
  lemma DigitsSum4()
    ensures SumOf("2345", 4, 1)
  {
    assert "23" + "45" == "2345";
    DigitsSum2();
    Block245();
    RunAppends("23", 25, 2, "45", 2, 1);
  }

  /** The weighted sum of "234567" agrees with 1. */
  lemma DigitsSum6()
    ensures SumOf("234567", 6, 1)
  {
    assert "2345" + "67" == "234567";
    DigitsSum4();
    Block467();
    RunAppends("2345", 1, 4, "67", 2, 1);
  }

  /** The check character of the empty payload is 'A'. */
  lemma Alphabet0()
    ensures ChecksTo("", 'A')
  {
    assert Exponent(0) == 30;
    assert RowTimesBv(0, SlotBv(30)) == 0;
    assert SymbolFor(0) == 'A';
    EmptySum();
    CheckOf("", 0, 0, 30, 0, 'A');
  }

  /** The check character of "A" is 'A'. */
  lemma Alphabet1()
    ensures ChecksTo("A", 'A')
  {
    assert Exponent(1) == 29;
    assert RowTimesBv(0, SlotBv(29)) == 0;
    assert SymbolFor(0) == 'A';
    AlphabetSum1();
    CheckOf("A", 1, 0, 29, 0, 'A');
  }

  /** The check character of "AB" is 'Q'. */
  lemma Alphabet2()
    ensures ChecksTo("AB", 'Q')
  {
    assert Exponent(2) == 28;
    assert RowTimesBv(6, SlotBv(28)) == 16;
    assert SymbolFor(16) == 'Q';
    AlphabetSum2();
    CheckOf("AB", 2, 6, 28, 16, 'Q');
  }

  /** The check character of "ABC" is 'J'. */
  lemma Alphabet3()
    ensures ChecksTo("ABC", 'J')
  {
    assert Exponent(3) == 27;
    assert RowTimesBv(17, SlotBv(27)) == 9;
    assert SymbolFor(9) == 'J';
    AlphabetSum3();
    CheckOf("ABC", 3, 17, 27, 9, 'J');
  }

  /** The check character of "ABCD" is 'V'. */
  lemma Alphabet4()
    ensures ChecksTo("ABCD", 'V')
  {
    assert Exponent(4) == 26;
    assert RowTimesBv(4, SlotBv(26)) == 21;
    assert SymbolFor(21) == 'V';
    AlphabetSum4();
    CheckOf("ABCD", 4, 4, 26, 21, 'V');
  }

  /** The check character of "ABCDE" is 'I'. */
  lemma Alphabet5()
    ensures ChecksTo("ABCDE", 'I')
  {
    assert Exponent(5) == 25;
    assert RowTimesBv(15, SlotBv(25)) == 8;
    assert SymbolFor(8) == 'I';
    AlphabetSum5();
    CheckOf("ABCDE", 5, 15, 25, 8, 'I');
  }

  /** The check character of "ABCDEF" is 'G'. */
  lemma Alphabet6()
    ensures ChecksTo("ABCDEF", 'G')
  {
    assert Exponent(6) == 24;
    assert RowTimesBv(18, SlotBv(24)) == 6;
    assert SymbolFor(6) == 'G';
    AlphabetSum6();
    CheckOf("ABCDEF", 6, 18, 24, 6, 'G');
  }

  /** The check character of "ABCDEFG" is 'A'. */
  lemma Alphabet7()
    ensures ChecksTo("ABCDEFG", 'A')
  {
    assert Exponent(7) == 23;
    assert RowTimesBv(0, SlotBv(23)) == 0;
    assert SymbolFor(0) == 'A';
    AlphabetSum7();
    CheckOf("ABCDEFG", 7, 0, 23, 0, 'A');
  }

  /** The check character of "ABCDEFGH" is 'T'. */
  lemma Alphabet8()
    ensures ChecksTo("ABCDEFGH", 'T')
  {
    assert Exponent(8) == 22;
    assert RowTimesBv(13, SlotBv(22)) == 19;
    assert SymbolFor(19) == 'T';
    AlphabetSum8();
    CheckOf("ABCDEFGH", 8, 13, 22, 19, 'T');
  }

  /** The check character of "ABCDEFGHI" is '5'. */
  lemma Alphabet9()
    ensures ChecksTo("ABCDEFGHI", '5')
  {
    assert Exponent(9) == 21;
    assert RowTimesBv(16, SlotBv(21)) == 29;
    assert SymbolFor(29) == '5';
    AlphabetSum9();
    CheckOf("ABCDEFGHI", 9, 16, 21, 29, '5');
  }

  /** The check character of "ABCDEFGHIJ" is 'K'. */
  lemma Alphabet10()
    ensures ChecksTo("ABCDEFGHIJ", 'K')
  {
    assert Exponent(10) == 20;
    assert RowTimesBv(15, SlotBv(20)) == 10;
    assert SymbolFor(10) == 'K';
    AlphabetSum10();
    CheckOf("ABCDEFGHIJ", 10, 15, 20, 10, 'K');
  }

  /** The check character of "ABCDEFGHIJK" is 'A'. */
  lemma Alphabet11()
    ensures ChecksTo("ABCDEFGHIJK", 'A')
  {
    assert Exponent(11) == 19;
    assert RowTimesBv(0, SlotBv(19)) == 0;
    assert SymbolFor(0) == 'A';
    AlphabetSum11();
    CheckOf("ABCDEFGHIJK", 11, 0, 19, 0, 'A');
  }

  /** The check character of "ABCDEFGHIJKL" is 'F'. */
  lemma Alphabet12()
    ensures ChecksTo("ABCDEFGHIJKL", 'F')
  {
    assert Exponent(12) == 18;
    assert RowTimesBv(14, SlotBv(18)) == 5;
    assert SymbolFor(5) == 'F';
    AlphabetSum12();
    CheckOf("ABCDEFGHIJKL", 12, 14, 18, 5, 'F');
  }

  /** The check character of "ABCDEFGHIJKLM" is 'U'. */
  lemma Alphabet13()
    ensures ChecksTo("ABCDEFGHIJKLM", 'U')
  {
    assert Exponent(13) == 17;
    assert RowTimesBv(27, SlotBv(17)) == 20;
    assert SymbolFor(20) == 'U';
    AlphabetSum13();
    CheckOf("ABCDEFGHIJKLM", 13, 27, 17, 20, 'U');
  }

  /** The check character of "ABCDEFGHIJKLMN" is 'M'. */
  lemma Alphabet14()
    ensures ChecksTo("ABCDEFGHIJKLMN", 'M')
  {
    assert Exponent(14) == 16;
    assert RowTimesBv(20, SlotBv(16)) == 12;
    assert SymbolFor(12) == 'M';
    AlphabetSum14();
    CheckOf("ABCDEFGHIJKLMN", 14, 20, 16, 12, 'M');
  }

  /** The check character of "ABCDEFGHIJKLMNO" is 'R'. */
  lemma Alphabet15()
    ensures ChecksTo("ABCDEFGHIJKLMNO", 'R')
  {
    assert Exponent(15) == 15;
    assert RowTimesBv(28, SlotBv(15)) == 17;
    assert SymbolFor(17) == 'R';
    AlphabetSum15();
    CheckOf("ABCDEFGHIJKLMNO", 15, 28, 15, 17, 'R');
  }

  /** The check character of "ABCDEFGHIJKLMNOP" is '7'. */
  lemma Alphabet16()
    ensures ChecksTo("ABCDEFGHIJKLMNOP", '7')
  {
    assert Exponent(16) == 14;
    assert RowTimesBv(26, SlotBv(14)) == 31;
    assert SymbolFor(31) == '7';
    AlphabetSum16();
    CheckOf("ABCDEFGHIJKLMNOP", 16, 26, 14, 31, '7');
  }

  /** The check character of "ABCDEFGHIJKLMNOPQ" is 'X'. */
  lemma Alphabet17()
    ensures ChecksTo("ABCDEFGHIJKLMNOPQ", 'X')
  {
    assert Exponent(17) == 13;
    assert RowTimesBv(13, SlotBv(13)) == 23;
    assert SymbolFor(23) == 'X';
    AlphabetSum17();
    CheckOf("ABCDEFGHIJKLMNOPQ", 17, 13, 13, 23, 'X');
  }

  /** The check character of "ABCDEFGHIJKLMNOPQR" is 'D'. */
  lemma Alphabet18()
    ensures ChecksTo("ABCDEFGHIJKLMNOPQR", 'D')
  {
    assert Exponent(18) == 12;
    assert RowTimesBv(29, SlotBv(12)) == 3;
    assert SymbolFor(3) == 'D';
    AlphabetSum18();
    CheckOf("ABCDEFGHIJKLMNOPQR", 18, 29, 12, 3, 'D');
  }

  /** The check character of "ABCDEFGHIJKLMNOPQRS" is 'I'. */
  lemma Alphabet19()
    ensures ChecksTo("ABCDEFGHIJKLMNOPQRS", 'I')
  {
    assert Exponent(19) == 11;
    assert RowTimesBv(1, SlotBv(11)) == 8;
    assert SymbolFor(8) == 'I';
    AlphabetSum19();
    CheckOf("ABCDEFGHIJKLMNOPQRS", 19, 1, 11, 8, 'I');
  }

  /** The check character of "ABCDEFGHIJKLMNOPQRST" is '5'. */
  lemma Alphabet20()
    ensures ChecksTo("ABCDEFGHIJKLMNOPQRST", '5')
  {
    assert Exponent(20) == 10;
    assert RowTimesBv(4, SlotBv(10)) == 29;
    assert SymbolFor(29) == '5';
    AlphabetSum20();
    CheckOf("ABCDEFGHIJKLMNOPQRST", 20, 4, 10, 29, '5');
  }

  /** The check character of "ABCDEFGHIJKLMNOPQRSTU" is 'U'. */
  lemma Alphabet21()
    ensures ChecksTo("ABCDEFGHIJKLMNOPQRSTU", 'U')
  {
    assert Exponent(21) == 9;
    assert RowTimesBv(24, SlotBv(9)) == 20;
    assert SymbolFor(20) == 'U';
    AlphabetSum21();
    CheckOf("ABCDEFGHIJKLMNOPQRSTU", 21, 24, 9, 20, 'U');
  }

  /** The check character of "ABCDEFGHIJKLMNOPQRSTUV" is 'Q'. */
  lemma Alphabet22()
    ensures ChecksTo("ABCDEFGHIJKLMNOPQRSTUV", 'Q')
  {
    assert Exponent(22) == 8;
    assert RowTimesBv(22, SlotBv(8)) == 16;
    assert SymbolFor(16) == 'Q';
    AlphabetSum22();
    CheckOf("ABCDEFGHIJKLMNOPQRSTUV", 22, 22, 8, 16, 'Q');
  }

  /** The check character of "ABCDEFGHIJKLMNOPQRSTUVW" is 'D'. */
  lemma Alphabet23()
    ensures ChecksTo("ABCDEFGHIJKLMNOPQRSTUVW", 'D')
  {
    assert Exponent(23) == 7;
    assert RowTimesBv(19, SlotBv(7)) == 3;
    assert SymbolFor(3) == 'D';
    AlphabetSum23();
    CheckOf("ABCDEFGHIJKLMNOPQRSTUVW", 23, 19, 7, 3, 'D');
  }

  /** The check character of "ABCDEFGHIJKLMNOPQRSTUVWX" is 'K'. */
  lemma Alphabet24()
    ensures ChecksTo("ABCDEFGHIJKLMNOPQRSTUVWX", 'K')
  {
    assert Exponent(24) == 6;
    assert RowTimesBv(1, SlotBv(6)) == 10;
    assert SymbolFor(10) == 'K';
    AlphabetSum24();
    CheckOf("ABCDEFGHIJKLMNOPQRSTUVWX", 24, 1, 6, 10, 'K');
  }

  /** The check character of "ABCDEFGHIJKLMNOPQRSTUVWXY" is 'J'. */
  lemma Alphabet25()
    ensures ChecksTo("ABCDEFGHIJKLMNOPQRSTUVWXY", 'J')
  {
    assert Exponent(25) == 5;
    assert RowTimesBv(13, SlotBv(5)) == 9;
    assert SymbolFor(9) == 'J';
    AlphabetSum25();
    CheckOf("ABCDEFGHIJKLMNOPQRSTUVWXY", 25, 13, 5, 9, 'J');
  }

  /** The check character of "ABCDEFGHIJKLMNOPQRSTUVWXYZ" is 'Y'. */
  lemma Alphabet26()
    ensures ChecksTo("ABCDEFGHIJKLMNOPQRSTUVWXYZ", 'Y')
  {
    assert Exponent(26) == 4;
    assert RowTimesBv(19, SlotBv(4)) == 24;
    assert SymbolFor(24) == 'Y';
    AlphabetSum26();
    CheckOf("ABCDEFGHIJKLMNOPQRSTUVWXYZ", 26, 19, 4, 24, 'Y');
  }

  /** The check character of "ABCDEFGHIJKLMNOPQRSTUVWXYZ2" is 'R'. */
  lemma Alphabet27()
    ensures ChecksTo("ABCDEFGHIJKLMNOPQRSTUVWXYZ2", 'R')
  {
    assert Exponent(27) == 3;
    assert RowTimesBv(18, SlotBv(3)) == 17;
    assert SymbolFor(17) == 'R';
    AlphabetSum27();
    CheckOf("ABCDEFGHIJKLMNOPQRSTUVWXYZ2", 27, 18, 3, 17, 'R');
  }

  /** The check character of "ABCDEFGHIJKLMNOPQRSTUVWXYZ23" is 'V'. */
  lemma Alphabet28()
    ensures ChecksTo("ABCDEFGHIJKLMNOPQRSTUVWXYZ23", 'V')
  {
    assert Exponent(28) == 2;
    assert RowTimesBv(13, SlotBv(2)) == 21;
    assert SymbolFor(21) == 'V';
    AlphabetSum28();
    CheckOf("ABCDEFGHIJKLMNOPQRSTUVWXYZ23", 28, 13, 2, 21, 'V');
  }

  /** The check character of "ABCDEFGHIJKLMNOPQRSTUVWXYZ234" is 'U'. */
  lemma Alphabet29()
    ensures ChecksTo("ABCDEFGHIJKLMNOPQRSTUVWXYZ234", 'U')
  {
    assert Exponent(29) == 1;
    assert RowTimesBv(10, SlotBv(1)) == 20;
    assert SymbolFor(20) == 'U';
    AlphabetSum29();
    CheckOf("ABCDEFGHIJKLMNOPQRSTUVWXYZ234", 29, 10, 1, 20, 'U');
  }

  /** The check character of "ABCDEFGHIJKLMNOPQRSTUVWXYZ2345" is 'U'. */
  lemma Alphabet30()
    ensures ChecksTo("ABCDEFGHIJKLMNOPQRSTUVWXYZ2345", 'U')
  {
    assert Exponent(30) == 0;
    assert RowTimesBv(20, SlotBv(0)) == 20;
    assert SymbolFor(20) == 'U';
    AlphabetSum30();
    CheckOf("ABCDEFGHIJKLMNOPQRSTUVWXYZ2345", 30, 20, 0, 20, 'U');
  }

  /** The check character of "ABCDEFGHIJKLMNOPQRSTUVWXYZ23456" is 'V'. */
  lemma Alphabet31()
    ensures ChecksTo("ABCDEFGHIJKLMNOPQRSTUVWXYZ23456", 'V')
  {
    assert Exponent(31) == 30;
    assert RowTimesBv(10, SlotBv(30)) == 21;
    assert SymbolFor(21) == 'V';
    AlphabetSum31();
    CheckOf("ABCDEFGHIJKLMNOPQRSTUVWXYZ23456", 31, 10, 30, 21, 'V');
  }

  /** The check character of "ABCDEFGHIJKLMNOPQRSTUVWXYZ234567" is 'V'. */
  lemma Alphabet32()
    ensures ChecksTo("ABCDEFGHIJKLMNOPQRSTUVWXYZ234567", 'V')
  {
    assert Exponent(32) == 29;
    assert RowTimesBv(20, SlotBv(29)) == 21;
    assert SymbolFor(21) == 'V';
    AlphabetSum32();
    CheckOf("ABCDEFGHIJKLMNOPQRSTUVWXYZ234567", 32, 20, 29, 21, 'V');
  }

  /** The check character of "ABCDEFGHIJKLMNOPQRSTUVWXYZ234567ABCDEFGHIJKLMNOPQRSTUVWXYZ2345" is '6'. */
  lemma Alphabet62()
    ensures ChecksTo("ABCDEFGHIJKLMNOPQRSTUVWXYZ234567ABCDEFGHIJKLMNOPQRSTUVWXYZ2345", '6')
  {
    assert Exponent(62) == 30;
    assert RowTimesBv(29, SlotBv(30)) == 30;
    assert SymbolFor(30) == '6';
    AlphabetSum62();
    CheckOf("ABCDEFGHIJKLMNOPQRSTUVWXYZ234567ABCDEFGHIJKLMNOPQRSTUVWXYZ2345", 62, 29, 30, 30, '6');
  }

  /** The check character of "ABCDEFGHIJKLMNOPQRSTUVWXYZ234567ABCDEFGHIJKLMNOPQRSTUVWXYZ234567ABCDEFGHIJKLMNOPQRSTUVWXYZ234" is 'K'. */
  lemma Alphabet93()
    ensures ChecksTo("ABCDEFGHIJKLMNOPQRSTUVWXYZ234567ABCDEFGHIJKLMNOPQRSTUVWXYZ234567ABCDEFGHIJKLMNOPQRSTUVWXYZ234", 'K')
  {
    assert Exponent(93) == 30;
    assert RowTimesBv(20, SlotBv(30)) == 10;
    assert SymbolFor(10) == 'K';
    AlphabetSum93();
    CheckOf("ABCDEFGHIJKLMNOPQRSTUVWXYZ234567ABCDEFGHIJKLMNOPQRSTUVWXYZ234567ABCDEFGHIJKLMNOPQRSTUVWXYZ234", 93, 20, 30, 10, 'K');
  }

  /** The check character of "CONSECRATIO" is 'X'. */
  lemma Consecratio()
    ensures ChecksTo("CONSECRATIO", 'X')
  {
    assert Exponent(11) == 19;
    assert RowTimesBv(28, SlotBv(19)) == 23;
    assert SymbolFor(23) == 'X';
    ConsecratioSum11();
    CheckOf("CONSECRATIO", 11, 28, 19, 23, 'X');
  }

  /** The check character of "CAFEBABE" is 'N'. */
  lemma CafeBabe()
    ensures ChecksTo("CAFEBABE", 'N')
  {
    assert Exponent(8) == 22;
    assert RowTimesBv(17, SlotBv(22)) == 13;
    assert SymbolFor(13) == 'N';
    CafeBabeSum8();
    CheckOf("CAFEBABE", 8, 17, 22, 13, 'N');
  }

  /** The check character of "CAFEDEAD" is 'A'. */
  lemma CafeDead()
    ensures ChecksTo("CAFEDEAD", 'A')
  {
    assert Exponent(8) == 22;
    assert RowTimesBv(0, SlotBv(22)) == 0;
    assert SymbolFor(0) == 'A';
    CafeDeadSum8();
    CheckOf("CAFEDEAD", 8, 0, 22, 0, 'A');
  }

  /** The check character of "DEADBEEF" is 'L'. */
  lemma DeadBeef()
    ensures ChecksTo("DEADBEEF", 'L')
  {
    assert Exponent(8) == 22;
    assert RowTimesBv(25, SlotBv(22)) == 11;
    assert SymbolFor(11) == 'L';
    DeadBeefSum8();
    CheckOf("DEADBEEF", 8, 25, 22, 11, 'L');
  }

  /** The check character of "234567" is 'Z'. */
  lemma Digits()
    ensures ChecksTo("234567", 'Z')
  {
    assert Exponent(6) == 24;
    assert RowTimesBv(1, SlotBv(24)) == 25;
    assert SymbolFor(25) == 'Z';
    DigitsSum6();
    CheckOf("234567", 6, 1, 24, 25, 'Z');
  }
}
