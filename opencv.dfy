/**
 * The parts of OpenCV the program calls, seen from outside. The library's
 * pixel arithmetic is not modelled: every call is a field of `Library`, a
 * total function the rest of the model is parameterised by, so each property
 * proved holds for whatever the library computes.
 */
module OpenCv {
  import opened Wrappers

  /** C++ `int` on the platforms OpenCV supports: 32-bit two's complement. */
  const INT_MIN: int := -0x8000_0000
  const INT_MAX: int := 0x7fff_ffff
  type Int32 = x: int | INT_MIN <= x <= INT_MAX

  /**
   * A `cv::Mat`: its dimensions, its channel count and its samples, whose
   * layout is the library's business.
   */
  datatype Mat = Mat(rows: nat, cols: nat, channels: nat, samples: seq<int>) {

    /** `cv::Mat::empty()`: the matrix has no elements. */
    predicate IsEmpty() {
      rows == 0 || cols == 0
    }
  }

  /** A default-constructed `cv::Mat`. */
  const EmptyMat: Mat := Mat(0, 0, 0, [])

  /**
   * The library functions the program calls. A call that yields `None`
   * raised `cv::Exception`.
   *  - imread: `cv::imread(path, IMREAD_COLOR)`; `Some` of an empty Mat when
   *    the file cannot be read or decoded.
   *  - imwrite: `cv::imwrite(path, image)`; `Some(false)` when the encoder
   *    reports failure.
   *  - cvtColorBgrToGray: `cv::cvtColor(src, dst, COLOR_BGR2GRAY)`.
   *  - gaussianBlur: `cv::GaussianBlur(src, dst, Size(width, height), sigmaX)`.
   *  - canny: `cv::Canny(src, dst, threshold1, threshold2)`.
   *  - sobel16S: `cv::Sobel(src, dst, CV_16S, dx, dy, ksize)`.
   *  - convertScaleAbs: `cv::convertScaleAbs(src, dst)`.
   *  - addWeighted: `cv::addWeighted(src1, alpha, src2, beta, gamma, dst)`.
   */
  datatype Library = Library(
    imread: string -> Option<Mat>,
    imwrite: (string, Mat) -> Option<bool>,
    cvtColorBgrToGray: Mat -> Option<Mat>,
    gaussianBlur: (Mat, Int32, Int32, real) -> Option<Mat>,
    canny: (Mat, real, real) -> Option<Mat>,
    sobel16S: (Mat, Int32, Int32, Int32) -> Option<Mat>,
    convertScaleAbs: Mat -> Option<Mat>,
    addWeighted: (Mat, real, Mat, real, real) -> Option<Mat>
  )
}
