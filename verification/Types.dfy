// Vocabulary shared by every module of the model.
module Types {
  type Byte = x: int | 0 <= x < 0x100
  type Word = x: int | 0 <= x < 0x1_0000

  datatype Option<+T> = None | Some(value: T)

  // The four signal types. Each names both a process image and the Modbus address
  // space that backs it (section 4.3 of the MODBUS Application Protocol
  // Specification V1.1b3): discrete inputs, coils, input registers, holding registers.
  datatype RegType = DI | DO | AI | AO {
    predicate Digital() { DI? || DO? }
    predicate Output() { DO? || AO? }
  }

  // One value per signal type.
  datatype PerReg<T> = PerReg(di: T, dout: T, ai: T, ao: T) {
    function At(t: RegType): T {
      match t
      case DI => di
      case DO => dout
      case AI => ai
      case AO => ao
    }

    function With(t: RegType, v: T): PerReg<T> {
      match t
      case DI => this.(di := v)
      case DO => this.(dout := v)
      case AI => this.(ai := v)
      case AO => this.(ao := v)
    }
  }

  // The exception classes the program raises.
  datatype Error = LogicError | OutOfRange | RuntimeError | SystemError

  datatype Outcome = Ok | Threw(error: Error)

  // Undefined: the C++ program indexes a vector outside its bounds.
  datatype Result<+T> = Returned(value: T) | Raised(error: Error) | Undefined

  datatype Range = Range(addr: Word, size: nat)
}
